/** The writes of the company service: creating, updating and deleting a
    company, over a store whose three collections the methods change in place.
    Each method's new state is given by a function of the old state; the
    lemmas below say what those functions keep and what they change. */
module CompanyStore {
  import opened CompanyModel
  import opened MongoQuery
  import opened CompanyQueries

  ghost predicate HasId(s: seq<Company>, id: CompanyId)
  {
    exists c :: c in s && c.id == id
  }

  /** The document `new companyModel(dto).save()` stores: the request's
      fields, the generated id and the creation time as its update time. */
  function NewCompany(id: CompanyId, draft: CompanyDraft, now: nat): Company
  {
    Company(id, draft.employerId, now, draft.companyName, draft.fields)
  }

  /** `{ $set: dto }`: every supplied field takes the supplied value, every
      other field keeps its value, and the update time is refreshed. */
  function ApplyPatch(c: Company, patch: CompanyPatch, now: nat): (r: Company)
    ensures r.id == c.id && r.updatedAt == now
    ensures patch.employerId.None? ==> r.employerId == c.employerId
    ensures patch.employerId.Some? ==> r.employerId == patch.employerId.value
    ensures patch.companyName.None? ==> r.companyName == c.companyName
    ensures patch.companyName.Some? ==> r.companyName == patch.companyName.value
    ensures r.fields.Keys == c.fields.Keys + patch.fields.Keys
    ensures forall k :: k in patch.fields ==> r.fields[k] == patch.fields[k]
    ensures forall k :: k in c.fields && k !in patch.fields ==> r.fields[k] == c.fields[k]
  {
    Company(
      c.id,
      match patch.employerId case Some(e) => e case None => c.employerId,
      now,
      match patch.companyName case Some(n) => n case None => c.companyName,
      c.fields + patch.fields)
  }

  /** Setting the same fields twice at the same instant is setting them once. */
  lemma ApplyPatchIdempotent(c: Company, patch: CompanyPatch, now: nat)
    ensures ApplyPatch(ApplyPatch(c, patch, now), patch, now) == ApplyPatch(c, patch, now)
  {
    var once := ApplyPatch(c, patch, now);
    var twice := ApplyPatch(once, patch, now);
    assert twice.fields == once.fields;
  }

  /** `findByIdAndUpdate`: the first company with that id is patched in
      place; a missing id leaves the collection as it was. */
  function UpdateById(s: seq<Company>, id: CompanyId, patch: CompanyPatch, now: nat): (r: seq<Company>)
    ensures |r| == |s|
    ensures forall i :: 0 <= i < |s| ==> r[i].id == s[i].id
    ensures forall i :: 0 <= i < |s| && s[i].id != id ==> r[i] == s[i]
    ensures !HasId(s, id) ==> r == s
  {
    match IndexOf(s, id)
    case None => s
    case Some(i) => s[i := ApplyPatch(s[i], patch, now)]
  }

  /** `findByIdAndDelete`: the first company with that id is removed; a
      missing id leaves the collection as it was. */
  function RemoveById(s: seq<Company>, id: CompanyId): (r: seq<Company>)
    ensures !HasId(s, id) ==> r == s
    ensures HasId(s, id) ==> |r| == |s| - 1
    ensures forall c :: c in s && c.id != id ==> c in r
    ensures forall c :: c in r ==> c in s
  {
    match IndexOf(s, id)
    case None => s
    case Some(i) =>
      assert s == s[..i] + [s[i]] + s[i + 1..];
      s[..i] + s[i + 1..]
  }

  /** `jobPostModel.deleteMany({ companyId: id })`. */
  function DeleteJobPostsOf(posts: seq<JobPost>, id: CompanyId): (r: seq<JobPost>)
    ensures forall p :: p in r <==> p in posts && p.companyId != id
    ensures forall p: JobPost :: p.companyId != id ==> multiset(r)[p] == multiset(posts)[p]
  {
    FilterCount(posts, (p: JobPost) => p.companyId != id);
    Filter(posts, (p: JobPost) => p.companyId != id)
  }

  /** With unique ids, an update patches exactly the company with that id,
      keeps every other company where it was, and keeps the ids unique. */
  lemma UpdateByIdChangesOnlyThatCompany(s: seq<Company>, id: CompanyId, patch: CompanyPatch, now: nat)
    requires UniqueIds(s)
    ensures UniqueIds(UpdateById(s, id, patch, now))
    ensures forall i :: 0 <= i < |s| ==>
              UpdateById(s, id, patch, now)[i] == if s[i].id == id then ApplyPatch(s[i], patch, now) else s[i]
  {
  }

  /** An update is seen by the next lookup: the company is found, patched. */
  lemma {:induction false} UpdateThenFind(s: seq<Company>, id: CompanyId, patch: CompanyPatch, now: nat)
    requires UniqueIds(s) && HasId(s, id)
    ensures FindById(UpdateById(s, id, patch, now), id) == Some(ApplyPatch(FindById(s, id).value, patch, now))
  {
    var i := IndexOf(s, id).value;
    var r := UpdateById(s, id, patch, now);
    assert r[i] == ApplyPatch(s[i], patch, now);
    assert IndexOf(r, id) == Some(i);
  }

  /** The filter `{ _id: { $ne: id } }`. */
  function OtherThan(id: CompanyId): Company -> bool
  {
    (c: Company) => c.id != id
  }

  /** With unique ids, deleting by id is the same as filtering that id out:
      every other company stays, in its order, and the ids stay unique. */
  lemma {:induction false} RemoveByIdIsFilter(s: seq<Company>, id: CompanyId)
    requires UniqueIds(s)
    ensures RemoveById(s, id) == Filter(s, OtherThan(id))
    ensures UniqueIds(RemoveById(s, id))
  {
    if s == [] {
    } else if s[0].id == id {
      assert RemoveById(s, id) == s[1..];
      assert forall c :: c in s[1..] ==> c.id != id;
      FilterKeepsAll(s[1..], OtherThan(id));
    } else {
      RemoveByIdIsFilter(s[1..], id);
      RemoveByIdPastHead(s, id);
    }
    UniqueAfterRemoval(s, id);
  }

  /** Removal leaves a head with another id in front. */
  lemma RemoveByIdPastHead(s: seq<Company>, id: CompanyId)
    requires s != [] && s[0].id != id
    ensures RemoveById(s, id) == [s[0]] + RemoveById(s[1..], id)
  {
    match IndexOf(s[1..], id)
    case None =>
    case Some(k) =>
      assert IndexOf(s, id) == Some(k + 1);
      assert s[1..][..k] == s[1..k + 1];
      assert s[1..][k + 1..] == s[k + 2..];
      assert s[..k + 1] == [s[0]] + s[1..k + 1];
  }

  lemma {:induction false} FilterKeepsAll<T(!new)>(s: seq<T>, p: T -> bool)
    requires forall x :: x in s ==> p(x)
    ensures Filter(s, p) == s
  {
    if s != [] {
      FilterKeepsAll(s[1..], p);
    }
  }

  lemma UniqueAfterRemoval(s: seq<Company>, id: CompanyId)
    requires UniqueIds(s)
    ensures UniqueIds(RemoveById(s, id))
  {
    match IndexOf(s, id)
    case None =>
    case Some(i) =>
      var r := s[..i] + s[i + 1..];
      assert UniqueIds(r) by {
        forall j, k | 0 <= j < k < |r| ensures r[j].id != r[k].id {
          var j' := if j < i then j else j + 1;
          var k' := if k < i then k else k + 1;
          assert r[j] == s[j'] && r[k] == s[k'];
        }
      }
      assert r == RemoveById(s, id);
  }

  /** A created company is found by the next lookup, and ids stay unique. */
  lemma CreateThenFind(s: seq<Company>, id: CompanyId, draft: CompanyDraft, now: nat)
    requires UniqueIds(s) && !HasId(s, id)
    ensures UniqueIds(s + [NewCompany(id, draft, now)])
    ensures FindById(s + [NewCompany(id, draft, now)], id) == Some(NewCompany(id, draft, now))
  {
    var t := s + [NewCompany(id, draft, now)];
    assert forall i :: 0 <= i < |s| ==> t[i] == s[i] && s[i] in s;
    assert forall i :: 0 <= i < |s| ==> t[i].id != id;
    assert t[|s|].id == id;
    var k := IndexOf(t, id).value;
    assert k == |s|;
  }

  /** A deleted company is gone for the next lookup. */
  lemma RemoveThenNotFound(s: seq<Company>, id: CompanyId)
    requires UniqueIds(s)
    ensures FindById(RemoveById(s, id), id) == None
  {
    RemoveByIdIsFilter(s, id);
  }

  /** The company directory held in memory: the companies, the follower
      records and the job posts. */
  class CompanyService {
    var companies: seq<Company>
    var followers: seq<FollowerRecord>
    var jobPosts: seq<JobPost>

    /** The collection's unique `_id` index. */
    ghost predicate Valid()
      reads this
    {
      UniqueIds(companies)
    }

    /** What the read operations of `CompanyQueries` see; the methods below
        state through it what the next lookup returns. */
    function Snapshot(): (db: Db)
      reads this
      ensures db.companies == companies && db.followers == followers && db.jobPosts == jobPosts
    {
      Db(companies, followers, jobPosts)
    }

    constructor (companies: seq<Company>, followers: seq<FollowerRecord>, jobPosts: seq<JobPost>)
      requires UniqueIds(companies)
      ensures Valid()
      ensures this.companies == companies && this.followers == followers && this.jobPosts == jobPosts
    {
      this.companies := companies;
      this.followers := followers;
      this.jobPosts := jobPosts;
    }

    /** `createCompany`: stores a new company under the generated id `newId`
        at time `now`. The store refuses an id already in use. */
    method CreateCompany(newId: CompanyId, draft: CompanyDraft, now: nat) returns (r: Result<Company>)
      requires Valid()
      modifies this
      ensures Valid()
      ensures followers == old(followers) && jobPosts == old(jobPosts)
      ensures HasId(old(companies), newId) ==> r == Err(DuplicateKey(newId)) && companies == old(companies)
      ensures !HasId(old(companies), newId) ==>
                r == Ok(NewCompany(newId, draft, now)) && companies == old(companies) + [r.value]
    ensures r.Ok? ==> FindById(Snapshot().companies, newId) == Some(r.value)
    {
      if IndexOf(companies, newId).Some? {
        r := Err(DuplicateKey(newId));
      } else {
        var c := NewCompany(newId, draft, now);
        CreateThenFind(companies, newId, draft, now);
        companies := companies + [c];
        r := Ok(c);
      }
    }

    /** `updateCompany`: sets the supplied fields of the company with that
        id and returns the updated company, or fails with NotFound and
        changes nothing. */
    method UpdateCompany(id: CompanyId, patch: CompanyPatch, now: nat) returns (r: Result<Company>)
      requires Valid()
      modifies this
      ensures Valid()
      ensures followers == old(followers) && jobPosts == old(jobPosts)
      ensures !HasId(old(companies), id) ==> r == Err(NotFound(id)) && companies == old(companies)
      ensures HasId(old(companies), id) ==>
                companies == UpdateById(old(companies), id, patch, now)
                && r == Ok(ApplyPatch(FindById(old(companies), id).value, patch, now))
    ensures r.Ok? ==> FindById(Snapshot().companies, id) == Some(r.value)
    {
      match IndexOf(companies, id)
      case None =>
        r := Err(NotFound(id));
      case Some(i) =>
        UpdateByIdChangesOnlyThatCompany(companies, id, patch, now);
        UpdateThenFind(companies, id, patch, now);
        var updated := ApplyPatch(companies[i], patch, now);
        companies := companies[i := updated];
        r := Ok(updated);
    }

    /** `deleteCompany`: removes the company with that id and then every job
        post of that company, returning the removed company; or fails with
        NotFound and changes nothing. Follower records are not touched. */
    method DeleteCompany(id: CompanyId) returns (r: Result<Company>)
      requires Valid()
      modifies this
      ensures Valid()
      ensures followers == old(followers)
      ensures !HasId(old(companies), id) ==>
                r == Err(NotFound(id)) && companies == old(companies) && jobPosts == old(jobPosts)
      ensures HasId(old(companies), id) ==>
                r == Ok(FindById(old(companies), id).value)
                && companies == RemoveById(old(companies), id)
                && jobPosts == DeleteJobPostsOf(old(jobPosts), id)
    ensures FindById(Snapshot().companies, id) == None
    {
      match IndexOf(companies, id)
      case None =>
        r := Err(NotFound(id));
      case Some(i) =>
        var deleted := companies[i];
        UniqueAfterRemoval(companies, id);
        RemoveThenNotFound(companies, id);
        companies := companies[..i] + companies[i + 1..];
        jobPosts := DeleteJobPostsOf(jobPosts, id);
        r := Ok(deleted);
    }
  }
}
