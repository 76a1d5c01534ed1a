/** The documents of the company directory: companies, follower records and
    job posts, the snapshot of the three collections the service reads, and the
    shapes of the service's results and failures. */
module CompanyModel {

  /** A company's `_id`. Object ids are totally ordered, which is what the
      `_id: -1` tie-break of the listings relies on. */
  type CompanyId = nat
  type UserId = string
  type EmployerId = string

  /** A company document. `fields` stands for the profile fields the service
      never interprets (images, description, ...). */
  datatype Company = Company(
    id: CompanyId,
    employerId: EmployerId,
    updatedAt: nat,
    companyName: string,
    fields: map<string, string>)

  /** One follower document: a company and the users who follow it. */
  datatype FollowerRecord = FollowerRecord(companyId: CompanyId, followerIds: seq<UserId>)

  /** A job post; only the company it belongs to matters here. */
  datatype JobPost = JobPost(id: nat, companyId: CompanyId, payload: string)

  /** The three collections. Each is a sequence: where a query applies no
      sort, the model reads its result in this sequence's order. */
  datatype Db = Db(companies: seq<Company>, followers: seq<FollowerRecord>, jobPosts: seq<JobPost>)

  /** The body of a create request. */
  datatype CompanyDraft = CompanyDraft(employerId: EmployerId, companyName: string, fields: map<string, string>)

  datatype Option<T> = None | Some(value: T)

  /** The body of an update request: only the supplied fields are `$set`. */
  datatype CompanyPatch = CompanyPatch(
    employerId: Option<EmployerId>,
    companyName: Option<string>,
    fields: map<string, string>)

  /** How an operation fails: a plain `Error` with its message (reported as a
      server error), a `NotFoundException` for a missing id, or the store
      refusing a second document with the same `_id`. */
  datatype Failure = Failed(message: string) | NotFound(id: CompanyId) | DuplicateKey(id: CompanyId)

  datatype Result<T> = Ok(value: T) | Err(failure: Failure)

  /** A paginated listing: the companies of the page and the page number the
      service hands back. */
  datatype Listing = Listing(companies: seq<Company>, page: nat)

  /** The result of the company-details query. */
  datatype CompanyView = CompanyView(company: Company, isFollowed: bool)

  /** The `companyName` projection of the metadata query (with its `_id`). */
  datatype CompanyMeta = CompanyMeta(id: CompanyId, companyName: string)

  const CompanyNotFound := "Company not found"

  /** The collection's unique `_id` index: no two companies share an id. */
  ghost predicate UniqueIds(s: seq<Company>)
  {
    forall i, j :: 0 <= i < j < |s| ==> s[i].id != s[j].id
  }
}
