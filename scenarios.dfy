/** Concrete directories and what the listings return for them. */
module Scenarios {
  import opened CompanyModel
  import opened MongoQuery
  import opened Recency
  import opened CompanyQueries
  import opened CompanyStore

  function At(id: CompanyId, t: nat): Company
  {
    Company(id, "employer", t, "company", map[])
  }

  /** The listing order of three companies updated at increasing times. */
  lemma ThreeInListingOrder(a: Company, b: Company, c: Company, f: seq<FollowerRecord>, j: seq<JobPost>)
    requires a.updatedAt < b.updatedAt < c.updatedAt
    requires a.id != b.id && b.id != c.id && a.id != c.id
    ensures UniqueIds(Db([a, b, c], f, j).companies)
    ensures Sorted([c, b, a])
    ensures multiset([c, b, a]) == multiset(Db([a, b, c], f, j).companies)
  {
  }

  /** Three companies stored oldest first: the first page of two holds the
      two most recent and reports page 1 ... */
  lemma ThreeCompaniesFirstPage(a: Company, b: Company, c: Company, f: seq<FollowerRecord>, j: seq<JobPost>)
    requires a.updatedAt < b.updatedAt < c.updatedAt
    requires a.id != b.id && b.id != c.id && a.id != c.id
    ensures FindAllCompanies(Db([a, b, c], f, j), 0, 2) == Listing([c, b], 1)
  {
    ThreeInListingOrder(a, b, c, f, j);
    FindAllCompaniesIsSlice(Db([a, b, c], f, j), 0, 2, [c, b, a]);
    assert Paginate([c, b, a], 0, 2) == [c, b];
  }

  /** ... and the second holds the oldest and reports page 2. */
  lemma ThreeCompaniesSecondPage(a: Company, b: Company, c: Company, f: seq<FollowerRecord>, j: seq<JobPost>)
    requires a.updatedAt < b.updatedAt < c.updatedAt
    requires a.id != b.id && b.id != c.id && a.id != c.id
    ensures FindAllCompanies(Db([a, b, c], f, j), 1, 2) == Listing([a], 2)
  {
    ThreeInListingOrder(a, b, c, f, j);
    FindAllCompaniesIsSlice(Db([a, b, c], f, j), 1, 2, [c, b, a]);
    assert Paginate([c, b, a], 1, 2) == [a];
  }

  /** Two companies updated at the same instant are listed larger id first,
      whatever their order in the store. */
  lemma TieBrokenByIdDescending(a: Company, b: Company, f: seq<FollowerRecord>, j: seq<JobPost>)
    requires a.updatedAt == b.updatedAt && a.id < b.id
    ensures FindAllCompanies(Db([a, b], f, j), 0, 2).companies == [b, a]
  {
    var db, ordered := Db([a, b], f, j), [b, a];
    assert multiset(ordered) == multiset(db.companies);
    FindAllCompaniesIsSlice(db, 0, 2, ordered);
  }

  /** The listing order of five companies updated at times 0 to 4. */
  lemma FiveInListingOrder(s: seq<Company>)
    requires |s| == 5
    requires forall i :: 0 <= i < 5 ==> s[i].updatedAt == i
    ensures Sorted([s[4], s[3], s[2], s[1], s[0]])
    ensures multiset([s[4], s[3], s[2], s[1], s[0]]) == multiset(s)
  {
    assert s == [s[0], s[1], s[2], s[3], s[4]];
  }

  /** Five companies, two per page: page 2 holds only the oldest and reports
      page 3 ... */
  lemma FiveCompaniesThirdPage(s: seq<Company>, f: seq<FollowerRecord>, j: seq<JobPost>)
    requires |s| == 5 && UniqueIds(s)
    requires forall i :: 0 <= i < 5 ==> s[i].updatedAt == i
    ensures FindAllCompanies(Db(s, f, j), 2, 2) == Listing([s[0]], 3)
  {
    var ordered := [s[4], s[3], s[2], s[1], s[0]];
    FiveInListingOrder(s);
    FindAllCompaniesIsSlice(Db(s, f, j), 2, 2, ordered);
    assert Paginate(ordered, 2, 2) == [s[0]];
  }

  /** ... page 0 holds two and reports page 1, and page 3 is empty and
      reports page 4. */
  lemma FiveCompaniesFirstAndPastEnd(s: seq<Company>, f: seq<FollowerRecord>, j: seq<JobPost>)
    requires |s| == 5
    ensures |FindAllCompanies(Db(s, f, j), 0, 2).companies| == 2
    ensures FindAllCompanies(Db(s, f, j), 0, 2).page == 1
    ensures FindAllCompanies(Db(s, f, j), 3, 2) == Listing([], 4)
  {
  }

  /** `u` follows the first and the third of three companies, the third
      through two records; `v` follows the first and the third too. */
  function FollowingDb(a: Company, b: Company, c: Company, u: UserId, v: UserId): Db
  {
    Db([a, b, c], [FollowerRecord(c.id, [u]), FollowerRecord(a.id, [v, u]), FollowerRecord(c.id, [u, v])], [])
  }

  lemma FollowedIdsExample(a: Company, b: Company, c: Company, u: UserId, v: UserId)
    requires a.id != b.id && b.id != c.id && a.id != c.id
    ensures var ids := FollowedCompanyIds(FollowingDb(a, b, c, u, v).followers, u);
            a.id in ids && c.id in ids && b.id !in ids
  {
    var fs := FollowingDb(a, b, c, u, v).followers;
    assert fs[0].companyId == c.id && u in fs[0].followerIds;
    assert fs[1].companyId == a.id && u in fs[1].followerIds;
    assert Follows(fs, u, a.id) && Follows(fs, u, c.id);
  }

  /** The followed companies in collection order: the first and the third, once
      each ... */
  lemma FollowedStoreOrderExample(a: Company, b: Company, c: Company, u: UserId, v: UserId)
    requires a.id != b.id && b.id != c.id && a.id != c.id
    ensures FollowedInStoreOrder(FollowingDb(a, b, c, u, v), u) == [a, c]
  {
    var db := FollowingDb(a, b, c, u, v);
    var ids := FollowedCompanyIds(db.followers, u);
    FollowedIdsExample(a, b, c, u, v);
    var keep := IdIn(ids);
    assert keep(a) && !keep(b) && keep(c);
    FilterCons(c, [], keep);
    FilterCons(b, [c], keep);
    FilterCons(a, [b, c], keep);
    assert [a] + [b, c] == db.companies;
  }

  /** ... and the followed listing's first page is that sequence. */
  lemma FollowedExample(a: Company, b: Company, c: Company, u: UserId, v: UserId)
    requires a.id != b.id && b.id != c.id && a.id != c.id
    ensures GetFollowedCompanies(FollowingDb(a, b, c, u, v), u, 0, 5) == Listing([a, c], 1)
  {
    FollowedStoreOrderExample(a, b, c, u, v);
  }

  /** ... and the not-followed listing holds the second. */
  lemma NotFollowedExample(a: Company, b: Company, c: Company, u: UserId, v: UserId)
    requires a.id != b.id && b.id != c.id && a.id != c.id
    ensures GetNotFollowedCompanies(FollowingDb(a, b, c, u, v), u, 0, 5) == Listing([b], 1)
  {
    var db := FollowingDb(a, b, c, u, v);
    var ids := FollowedCompanyIds(db.followers, u);
    FollowedIdsExample(a, b, c, u, v);
    var keep := IdNotIn(ids);
    assert keep(a) == (a.id !in ids) && keep(b) == (b.id !in ids) && keep(c) == (c.id !in ids);
    FilterCons(c, [], keep);
    assert Filter([c], keep) == [];
    FilterCons(b, [c], keep);
    assert Filter([b, c], keep) == [b];
    FilterCons(a, [b, c], keep);
    assert Filter([a, b, c], keep) == [b];
    assert Filter(db.companies, IdNotIn(ids)) == [b];
  }

  /** The details query reports the follow flag for the viewer `v`. */
  lemma DetailsExample(a: Company, b: Company, c: Company, u: UserId, v: UserId)
    requires a.id != b.id && b.id != c.id && a.id != c.id && u != v
    ensures FindCompanyById(FollowingDb(a, b, c, u, v), b.id, v) == Ok(CompanyView(b, false))
    ensures FindCompanyById(FollowingDb(a, b, c, u, v), c.id, v) == Ok(CompanyView(c, true))
  {
    var fs := FollowingDb(a, b, c, u, v).followers;
    assert fs[2].companyId == c.id && v in fs[2].followerIds;
    assert Follows(fs, v, c.id);
  }

  /** Deleting a company takes its job posts with it and nothing else, and a
      second delete of the same id is refused. */
  method DeleteCascades() returns (first: Result<Company>, second: Result<Company>,
                                    companies: seq<Company>, jobPosts: seq<JobPost>, followers: seq<FollowerRecord>)
    ensures first == Ok(At(1, 1)) && second == Err(NotFound(1))
    ensures companies == [At(2, 2)]
    ensures jobPosts == [JobPost(11, 2, "b")]
    ensures followers == [FollowerRecord(1, ["u"])]
  {
    var store := new CompanyService([At(1, 1), At(2, 2)], [FollowerRecord(1, ["u"])],
                                    [JobPost(10, 1, "a"), JobPost(11, 2, "b"), JobPost(12, 1, "c")]);
    first := store.DeleteCompany(1);
    assert HasId([At(1, 1), At(2, 2)], 1);
    second := store.DeleteCompany(1);
    companies, jobPosts, followers := store.companies, store.jobPosts, store.followers;
  }
}
