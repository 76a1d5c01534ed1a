/** The read operations of the company service, each a query over a snapshot
    of the three collections. */
module CompanyQueries {
  import opened CompanyModel
  import opened MongoQuery
  import opened Recency

  /** `user` follows company `id`: some follower record of that company lists
      the user among its followers. */
  ghost predicate Follows(followers: seq<FollowerRecord>, user: UserId, id: CompanyId)
  {
    exists i :: 0 <= i < |followers| && followers[i].companyId == id && user in followers[i].followerIds
  }

  /** `findById`: the position of the first company with that id. */
  function IndexOf(s: seq<Company>, id: CompanyId): (r: Option<nat>)
    ensures r.None? <==> forall i :: 0 <= i < |s| ==> s[i].id != id
    ensures r.Some? ==> r.value < |s| && s[r.value].id == id
    ensures r.Some? ==> forall i :: 0 <= i < r.value ==> s[i].id != id
  {
    if s == [] then None
    else if s[0].id == id then Some(0)
    else match IndexOf(s[1..], id)
      case None => None
      case Some(k) => Some(k + 1)
  }

  function FindById(s: seq<Company>, id: CompanyId): (r: Option<Company>)
    ensures r.None? <==> forall c :: c in s ==> c.id != id
    ensures r.Some? ==> r.value in s && r.value.id == id
  {
    match IndexOf(s, id)
    case None => None
    case Some(i) => Some(s[i])
  }

  /** `companyMetaData`: the name of the company with that id, or the plain
      "Company not found" error. */
  function CompanyMetaData(db: Db, id: CompanyId): (r: Result<CompanyMeta>)
    ensures r.Err? <==> forall c :: c in db.companies ==> c.id != id
    ensures r.Err? ==> r.failure == Failed(CompanyNotFound)
    ensures r.Ok? ==> r.value.id == id
    ensures r.Ok? ==> exists c :: c in db.companies && c.id == id && c.companyName == r.value.companyName
  {
    match FindById(db.companies, id)
    case None => Err(Failed(CompanyNotFound))
    case Some(c) => Ok(CompanyMeta(c.id, c.companyName))
  }

  /** `findAllCompanies`: page `page` of all companies in listing order. The
      query never fails: a page past the end is empty, and the page number
      handed back is always `page + 1`. */
  function FindAllCompanies(db: Db, page: nat, limit: nat): (r: Listing)
    ensures r.page == page + 1
    ensures limit > 0 ==> |r.companies| <= limit
    ensures limit > 0 ==> |r.companies| == if page * limit >= |db.companies| then 0
                                           else Min(limit, |db.companies| - page * limit)
    ensures forall c :: c in r.companies ==> c in db.companies
  {
    var ordered := SortByRecency(db.companies);
    assert |ordered| == |multiset(ordered)| == |db.companies|;
    assert forall c :: c in ordered ==> c in multiset(db.companies);
    Listing(Paginate(ordered, page, limit), page + 1)
  }

  /** The follower records that list `user`: `find({ followerIds: userId })`. */
  function FollowerDocs(followers: seq<FollowerRecord>, user: UserId): seq<FollowerRecord>
  {
    Filter(followers, (f: FollowerRecord) => user in f.followerIds)
  }

  /** The ids of the companies `user` follows, one per follower record that
      lists the user. */
  function FollowedCompanyIds(followers: seq<FollowerRecord>, user: UserId): (ids: seq<CompanyId>)
    ensures forall id :: id in ids <==> Follows(followers, user, id)
  {
    var docs := FollowerDocs(followers, user);
    var ids := seq(|docs|, i requires 0 <= i < |docs| => docs[i].companyId);
    assert forall id :: id in ids ==> Follows(followers, user, id) by {
      forall id | id in ids ensures Follows(followers, user, id) {
        var i :| 0 <= i < |docs| && ids[i] == id;
        assert docs[i] in followers;
        var j :| 0 <= j < |followers| && followers[j] == docs[i];
      }
    }
    assert forall id :: Follows(followers, user, id) ==> id in ids by {
      forall id | Follows(followers, user, id) ensures id in ids {
        var j :| 0 <= j < |followers| && followers[j].companyId == id && user in followers[j].followerIds;
        assert followers[j] in docs;
        var i :| 0 <= i < |docs| && docs[i] == followers[j];
        assert ids[i] == id;
      }
    }
    ids
  }

  /** The filter `{ _id: { $in: ids } }`. */
  function IdIn(ids: seq<CompanyId>): Company -> bool
  {
    (c: Company) => c.id in ids
  }

  /** The filter `{ _id: { $nin: ids } }`. */
  function IdNotIn(ids: seq<CompanyId>): Company -> bool
  {
    (c: Company) => c.id !in ids
  }

  /** Companies whose id is in the followed set (`$in`), in collection order. */
  function FollowedInStoreOrder(db: Db, user: UserId): (r: seq<Company>)
    ensures forall c :: c in r <==> c in db.companies && Follows(db.followers, user, c.id)
  {
    var ids := FollowedCompanyIds(db.followers, user);
    Filter(db.companies, IdIn(ids))
  }

  /** Companies whose id is not in the followed set (`$nin`), in collection order. */
  function NotFollowedInStoreOrder(db: Db, user: UserId): (r: seq<Company>)
    ensures forall c :: c in r <==> c in db.companies && !Follows(db.followers, user, c.id)
  {
    var ids := FollowedCompanyIds(db.followers, user);
    Filter(db.companies, IdNotIn(ids))
  }

  /** `getFollowedCompanies`: page `page` of the companies `user` follows.
      No sort is applied: the store picks the order, and the model takes the
      collection's sequence order. */
  function GetFollowedCompanies(db: Db, user: UserId, page: nat, limit: nat): (r: Listing)
    ensures r.page == page + 1
    ensures limit > 0 ==> |r.companies| <= limit
    ensures forall c :: c in r.companies ==> c in db.companies && Follows(db.followers, user, c.id)
  {
    var followed := FollowedInStoreOrder(db, user);
    Listing(Paginate(followed, page, limit), page + 1)
  }

  /** `getNotFollowedCompanies`: page `page` of the companies `user` does not
      follow, in collection order (no sort is applied). */
  function GetNotFollowedCompanies(db: Db, user: UserId, page: nat, limit: nat): (r: Listing)
    ensures r.page == page + 1
    ensures limit > 0 ==> |r.companies| <= limit
    ensures forall c :: c in r.companies ==> c in db.companies && !Follows(db.followers, user, c.id)
  {
    var notFollowed := NotFollowedInStoreOrder(db, user);
    Listing(Paginate(notFollowed, page, limit), page + 1)
  }

  /** `followerModel.exists({ companyId: id, followerIds: userId })`, as a
      scan of the follower records. */
  function AnyFollowerRecord(followers: seq<FollowerRecord>, id: CompanyId, user: UserId): (b: bool)
    ensures b <==> Follows(followers, user, id)
  {
    if followers == [] then false
    else if followers[0].companyId == id && user in followers[0].followerIds then true
    else
      var b := AnyFollowerRecord(followers[1..], id, user);
      assert b <==> Follows(followers, user, id) by {
        if Follows(followers[1..], user, id) {
          var i :| 0 <= i < |followers[1..]| && followers[1..][i].companyId == id && user in followers[1..][i].followerIds;
          assert followers[i + 1] == followers[1..][i];
        }
        if Follows(followers, user, id) {
          var i :| 0 <= i < |followers| && followers[i].companyId == id && user in followers[i].followerIds;
          assert i > 0 && followers[1..][i - 1] == followers[i];
        }
      }
      b
  }

  /** `findCompanyById`: the company with that id and whether `user` follows
      it, or the plain "Company not found" error. */
  function FindCompanyById(db: Db, id: CompanyId, user: UserId): (r: Result<CompanyView>)
    ensures r.Err? <==> forall c :: c in db.companies ==> c.id != id
    ensures r.Err? ==> r.failure == Failed(CompanyNotFound)
    ensures r.Ok? ==> r.value.company in db.companies && r.value.company.id == id
    ensures r.Ok? ==> (r.value.isFollowed <==> Follows(db.followers, user, id))
  {
    match FindById(db.companies, id)
    case None => Err(Failed(CompanyNotFound))
    case Some(c) => Ok(CompanyView(c, AnyFollowerRecord(db.followers, id, user)))
  }

  /** `findCompaniesByEmployer`: every company of that employer, each once
      per occurrence, in listing order. */
  function FindCompaniesByEmployer(db: Db, employerId: EmployerId): (r: seq<Company>)
    ensures Sorted(r)
    ensures forall c :: multiset(r)[c] == if c.employerId == employerId then multiset(db.companies)[c] else 0
    ensures forall c :: c in r <==> c in db.companies && c.employerId == employerId
  {
    var own := Filter(db.companies, (c: Company) => c.employerId == employerId);
    FilterCount(db.companies, (c: Company) => c.employerId == employerId);
    var r := SortByRecency(own);
    assert forall c :: c in r <==> c in multiset(own);
    r
  }

  /** The listing is exactly the requested slice of the companies in listing
      order: for ANY ordered arrangement `ordered` of the collection, page
      `page` holds positions `page * limit` up to `page * limit + limit`. */
  lemma FindAllCompaniesIsSlice(db: Db, page: nat, limit: nat, ordered: seq<Company>)
    requires UniqueIds(db.companies)
    requires Sorted(ordered) && multiset(ordered) == multiset(db.companies)
    ensures FindAllCompanies(db, page, limit).companies == Paginate(ordered, page, limit)
  {
    var sorted := SortByRecency(db.companies);
    UniqueIdsSameCompany(db.companies);
    assert SameIdSameCompany(sorted) by {
      forall x, y | x in sorted && y in sorted && x.id == y.id ensures x == y {
        assert x in multiset(sorted) && y in multiset(sorted);
        assert x in db.companies && y in db.companies;
      }
    }
    SortedPermutationUnique(sorted, ordered);
    assert FindAllCompanies(db, page, limit).companies == Paginate(sorted, page, limit);
  }

  /** A page past the end is an empty page, not an error, and still reports
      the next page number. */
  lemma PagePastEndIsEmpty(db: Db, page: nat, limit: nat)
    requires 0 < limit && |db.companies| <= page * limit
    ensures FindAllCompanies(db, page, limit) == Listing([], page + 1)
  {
  }

  /** Without pagination (`limit` 0 is "no limit"), the followed and
      not-followed listings split the collection: no company is in both, and
      together they hold every company exactly as often as the store does. */
  lemma FollowedNotFollowedPartition(db: Db, user: UserId)
    ensures multiset(GetFollowedCompanies(db, user, 0, 0).companies)
          + multiset(GetNotFollowedCompanies(db, user, 0, 0).companies) == multiset(db.companies)
    ensures forall c :: !(c in GetFollowedCompanies(db, user, 0, 0).companies
                          && c in GetNotFollowedCompanies(db, user, 0, 0).companies)
    ensures forall c :: c in db.companies ==>
              (c in GetFollowedCompanies(db, user, 0, 0).companies <==> Follows(db.followers, user, c.id))
    ensures forall c :: c in db.companies ==>
              (c in GetNotFollowedCompanies(db, user, 0, 0).companies <==> !Follows(db.followers, user, c.id))
  {
    var ids := FollowedCompanyIds(db.followers, user);
    FilterSplit(db.companies, IdIn(ids), IdNotIn(ids));
  }

  /** The details query agrees with the listings: a company is reported as
      followed exactly when the followed listing contains it. */
  lemma IsFollowedMatchesListings(db: Db, id: CompanyId, user: UserId)
    requires FindCompanyById(db, id, user).Ok?
    ensures FindCompanyById(db, id, user).value.isFollowed
            <==> FindCompanyById(db, id, user).value.company in GetFollowedCompanies(db, user, 0, 0).companies
    ensures !FindCompanyById(db, id, user).value.isFollowed
            <==> FindCompanyById(db, id, user).value.company in GetNotFollowedCompanies(db, user, 0, 0).companies
  {
    FollowedNotFollowedPartition(db, user);
  }

  /** The employer's listing is deterministic: any ordered arrangement of the
      employer's companies is that listing. */
  lemma EmployerListingIsDeterministic(db: Db, employerId: EmployerId, ordered: seq<Company>)
    requires UniqueIds(db.companies)
    requires Sorted(ordered)
    requires forall c :: multiset(ordered)[c] == if c.employerId == employerId then multiset(db.companies)[c] else 0
    ensures FindCompaniesByEmployer(db, employerId) == ordered
  {
    var r := FindCompaniesByEmployer(db, employerId);
    UniqueIdsSameCompany(db.companies);
    assert multiset(r) == multiset(ordered) by {
      forall c ensures multiset(r)[c] == multiset(ordered)[c] {
      }
    }
    assert SameIdSameCompany(r) by {
      forall x, y | x in r && y in r && x.id == y.id ensures x == y {
        assert x in db.companies && y in db.companies;
      }
    }
    SortedPermutationUnique(r, ordered);
  }
}
