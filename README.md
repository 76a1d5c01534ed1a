# Company directory service — a Dafny model

This project models the company service of a social-network backend
(`src/company/company.service.ts`). The service keeps three document
collections: companies, follower records (a company id and the ids of the
users following it) and job posts. On top of them it offers:

- paginated listings: all companies, the companies a user follows, and the
  companies a user does not follow;
- a company-details query that also says whether a given user follows the
  company;
- the companies of one employer, and a metadata query (the company name);
- create, update and delete, where delete cascades to the company's job posts.

The model is split along the same lines:

- `company_model.dfy` (`CompanyModel`): the documents, the snapshot `Db` of
  the three collections, and the result and failure shapes.
- `mongo_query.dfy` (`MongoQuery`): the document-store steps the service
  chains, as operations on sequences. `find(filter)` is `Filter`;
  `skip(page * limit).limit(limit)` is `Paginate`.
- `recency.dfy` (`Recency`): the listing order `sort({ updatedAt: -1, _id: -1 })`
  as an insertion sort. It comes with the proof that the order is
  deterministic when ids are unique.
- `company_queries.dfy` (`CompanyQueries`): the read operations. Each is a
  pure function over a `Db` snapshot.
- `company_store.dfy` (`CompanyStore`): the write operations. They are
  methods of the class `CompanyService`, whose fields are the three
  collections and which the methods reassign in place. Each method's new
  state is given by a function of the old state, and lemmas state what those
  functions keep and change.
- `scenarios.dfy` (`Scenarios`): small directories and what the listings
  return for them.

Modelling choices:

- A company id stands for a Mongo ObjectId. It is a `nat` because the
  `_id: -1` tie-break needs a total order. User and employer ids are strings.
- The clock is the parameter `now` of create and update. It stands for the
  schema-managed `updatedAt` timestamp, which the listings sort on. The
  generated ObjectId is the parameter `newId` of create. Saving a document
  whose `_id` is already taken fails with `DuplicateKey`, as the store's
  unique `_id` index makes it fail.
- `limit == 0` is modelled as the store reads it: no limit at all. The offset
  `page * 0` is then 0 too, so the whole filtered collection comes back.
  Every "at most `limit`" statement is made for `limit > 0`.
- The failures keep the distinctions the code makes. `companyMetaData` and
  `findCompanyById` throw a plain `Error("Company not found")`, which is
  `Failed(CompanyNotFound)` here. `updateCompany` and `deleteCompany` throw
  `NotFoundException`, which is `NotFound(id)` here.
- `findAllCompanies` and `findCompaniesByEmployer` guard with
  `if (!companies)`. That guard cannot fire, because `find` always yields a
  (possibly empty) array. So these two functions return plain values, not a
  `Result`. Ids are taken to be well-formed (see "Left out").

Behaviours of the code kept as written:

- The followed and not-followed listings apply no sort, so they are not in
  recency order. The store is free to return an unsorted `find` in any order.
  The model fixes that order to the collection's sequence order.
- The followed ids are an array built from the follower records. It holds
  one entry per matching record, so a company can appear twice. Only
  membership (`$in` / `$nin`) is used.
- Deleting a company does not touch follower records. Records that name a
  deleted company stay behind.

## Model

| member | source | states |
|---|---|---|
| `MongoQuery.Filter` | src/company/company.service.ts:72-77 | `find(filter)`: a document is in the result exactly when it is in the collection and matches; the result is never longer |
| `MongoQuery.FilterCount` | src/company/company.service.ts:128-132 | a matching document occurs in the result exactly as often as in the collection; a non-matching one never occurs |
| `MongoQuery.FilterAppend` | src/company/company.service.ts:91-96 | filtering commutes with concatenation: `Filter` keeps the order of the sequence it is given |
| `MongoQuery.FilterSplit` | src/company/company.service.ts:72-96 | a filter and its complement never share a document, and together they hold every document as often as the collection does |
| `MongoQuery.Paginate` | src/company/company.service.ts:46-53 | `skip(page*limit).limit(limit)`: `limit` 0 returns everything; otherwise the length is `min(limit, n - page*limit)` (0 past the end), and item `k` is collection position `page*limit + k` |
| `MongoQuery.PageOfIndex` | src/company/company.service.ts:46-53 | every position `i` is reached: it is item `i % limit` of page `i / limit` |
| `MongoQuery.PagesDisjoint` | src/company/company.service.ts:46-53 | two different pages never read the same position |
| `MongoQuery.NoDocumentOnTwoPages` | src/company/company.service.ts:46-53 | when the documents are pairwise distinct, no document is listed on two different pages |
| `Recency.SortByRecency` | src/company/company.service.ts:51 | the sort result is ordered by `updatedAt` descending, then `_id` descending, and is a permutation of its input |
| `Recency.SortedPermutationUnique` | src/company/company.service.ts:51 | when companies sharing an id are the same company, two ordered arrangements of the same companies are equal: the `_id` tie-break makes the order deterministic |
| `CompanyQueries.FindById` | src/company/company.service.ts:105-106 | `findById`: absent exactly when no company has the id; otherwise a stored company with that id |
| `CompanyQueries.CompanyMetaData` | src/company/company.service.ts:17-28 | fails with "Company not found" exactly when the id is absent; otherwise returns that id and the name of a stored company with it |
| `CompanyQueries.FindAllCompanies` | src/company/company.service.ts:45-64 | never fails; page number is `page + 1`; at most `limit` companies, with the exact slice length; every company returned is stored |
| `CompanyQueries.FindAllCompaniesIsSlice` | src/company/company.service.ts:48-54 | with unique ids, the page equals `Paginate(ordered, page, limit)` for ANY ordered arrangement `ordered` of all companies |
| `CompanyQueries.PagePastEndIsEmpty` | src/company/company.service.ts:56-63 | a page past the end is an empty listing, not an error, and still reports `page + 1` |
| `CompanyQueries.FollowedCompanyIds` | src/company/company.service.ts:69-70 | an id is in the followed ids exactly when some follower record with that company id lists the user |
| `CompanyQueries.FollowedInStoreOrder` | src/company/company.service.ts:72-73 | `$in`: holds exactly the stored companies the user follows |
| `CompanyQueries.NotFollowedInStoreOrder` | src/company/company.service.ts:91-92 | `$nin`: holds exactly the stored companies the user does not follow |
| `CompanyQueries.GetFollowedCompanies` | src/company/company.service.ts:66-83 | page number is `page + 1`; at most `limit` companies; each is stored and followed by the user |
| `CompanyQueries.GetNotFollowedCompanies` | src/company/company.service.ts:85-102 | page number is `page + 1`; at most `limit` companies; each is stored and not followed by the user |
| `CompanyQueries.FollowedNotFollowedPartition` | src/company/company.service.ts:69-96 | without pagination the two listings are disjoint, together hold every company as often as the store does, and each holds a stored company exactly when it is (not) followed |
| `CompanyQueries.AnyFollowerRecord` | src/company/company.service.ts:116-119 | `exists({ companyId, followerIds })` is true exactly when some record of that company lists the user |
| `CompanyQueries.FindCompanyById` | src/company/company.service.ts:104-125 | fails with "Company not found" exactly when the id is absent; otherwise returns a stored company with that id and `isFollowed` true exactly when the user follows it |
| `CompanyQueries.IsFollowedMatchesListings` | src/company/company.service.ts:116-123 | the details flag agrees with the unpaginated listings (`limit` 0): followed exactly when in the followed listing, not followed exactly when in the not-followed one |
| `CompanyQueries.FindCompaniesByEmployer` | src/company/company.service.ts:127-139 | never fails; ordered by recency; holds exactly that employer's companies, each as often as stored |
| `CompanyQueries.EmployerListingIsDeterministic` | src/company/company.service.ts:128-132 | with unique ids, any ordered arrangement of the employer's companies is that listing |
| `CompanyStore.ApplyPatch` | src/company/company.service.ts:147-151 | `$set`: supplied fields take the supplied values, unsupplied fields keep theirs, the id is kept and the update time refreshed |
| `CompanyStore.ApplyPatchIdempotent` | src/company/company.service.ts:147-151 | applying the same update twice at the same instant equals applying it once |
| `CompanyStore.UpdateById` | src/company/company.service.ts:147-151 | same length, same ids in the same places, companies with other ids untouched, a missing id changes nothing |
| `CompanyStore.UpdateByIdChangesOnlyThatCompany` | src/company/company.service.ts:147-151 | with unique ids, exactly the company with that id is patched and ids stay unique |
| `CompanyStore.UpdateThenFind` | src/company/company.service.ts:146-157 | after an update, a lookup by the id finds the old company patched |
| `CompanyStore.RemoveById` | src/company/company.service.ts:161 | a missing id changes nothing; otherwise one company fewer, every company with another id kept, nothing new |
| `CompanyStore.RemoveByIdIsFilter` | src/company/company.service.ts:161 | with unique ids, deleting by id equals filtering that id out (order kept) and ids stay unique |
| `CompanyStore.RemoveThenNotFound` | src/company/company.service.ts:160-165 | after a delete, a lookup by the id finds nothing |
| `CompanyStore.DeleteJobPostsOf` | src/company/company.service.ts:167 | `deleteMany({ companyId })`: a job post remains exactly when it belongs to another company, as often as before |
| `CompanyStore.CreateThenFind` | src/company/company.service.ts:141-144 | with a fresh id, appending the new company keeps ids unique and a lookup finds it |
| `CompanyStore.CompanyService.constructor` | src/company/company.service.ts:11-15 | the service starts from the given collections, with unique ids |
| `CompanyStore.CompanyService.CreateCompany` | src/company/company.service.ts:141-144 | a taken id fails with `DuplicateKey` and changes nothing; otherwise the new company is appended and returned, and a lookup of the new id finds it; followers and job posts untouched; ids stay unique |
| `CompanyStore.CompanyService.UpdateCompany` | src/company/company.service.ts:146-158 | a missing id fails with `NotFound` and changes nothing; otherwise the collection is `UpdateById` of the old one and the patched company is returned, and a lookup of the id finds it; followers and job posts untouched |
| `CompanyStore.CompanyService.DeleteCompany` | src/company/company.service.ts:160-170 | a missing id fails with `NotFound` and changes nothing (no job post is deleted); otherwise the company is removed and returned, its job posts are deleted, follower records are untouched; either way a lookup of the id then finds nothing |
| `Scenarios.ThreeCompaniesFirstPage` | src/company/company.service.ts:45-63 | three companies updated at increasing times, two per page: page 0 is the newest two, reported as page 1 |
| `Scenarios.ThreeCompaniesSecondPage` | src/company/company.service.ts:45-63 | page 1 of the same is the oldest company, reported as page 2 |
| `Scenarios.TieBrokenByIdDescending` | src/company/company.service.ts:51 | two companies updated at the same instant are listed larger id first, whatever their order in the collection |
| `Scenarios.FiveCompaniesThirdPage` | src/company/company.service.ts:45-63 | five companies, two per page: page 2 is the oldest company alone, reported as page 3 |
| `Scenarios.FiveCompaniesFirstAndPastEnd` | src/company/company.service.ts:45-63 | page 0 holds two companies and reports page 1; page 3 is empty and reports page 4 |
| `Scenarios.FollowedIdsExample` | src/company/company.service.ts:69-70 | a user listed in all three follower records, which name the first company once and the third twice, has the first and third companies among its followed ids and not the second |
| `Scenarios.FollowedStoreOrderExample` | src/company/company.service.ts:72-73 | a company followed through two records is listed once; the order is the collection's sequence order |
| `Scenarios.FollowedExample` | src/company/company.service.ts:66-83 | the followed listing's first page is the followed companies, in the collection's sequence order |
| `Scenarios.NotFollowedExample` | src/company/company.service.ts:85-102 | the not-followed listing holds the remaining company |
| `Scenarios.DetailsExample` | src/company/company.service.ts:104-125 | the details query reports the follow flag of the viewer |
| `Scenarios.DeleteCascades` | src/company/company.service.ts:160-170 | deleting company 1 returns it and leaves company 2, removes exactly company 1's job posts and keeps its follower record; deleting it again fails with `NotFound` |

## Left out

- `searchByName` (src/company/company.service.ts:30-43): it depends on the store's case-insensitive regular-expression matching, which is not modelled.
- `populate('employerId')` and `select(...)`: these are joins and projections. Companies are records whose profile fields are an opaque map. `companyMetaData` returns only the id and the name.
- `runValidators`, schema defaults and `lean()`: schema validation and document hydration belong to the store library.
- Asynchrony, store failures and the HTTP status of each exception class: failures are values of `Result`.
- The routing layer, and its coercion of query-string values to numbers: `page` and `limit` are naturals. Negative or non-numeric values are not modelled.
- Likes, comments, saves and their counters, the post timeline, and follow/unfollow: their services are not part of this model.
- `GetFollowedCompanies`, `GetNotFollowedCompanies`: their contracts say that every listed company is (not) followed. That every such company is listed is stated, without pagination, by `FollowedNotFollowedPartition`. Which followed companies land on which page is the `Paginate` of the store-order filter, which `Paginate`'s own contract describes.
- `FollowedInStoreOrder`, `NotFollowedInStoreOrder`, `GetFollowedCompanies`, `GetNotFollowedCompanies`: the code applies no sort, so the store picks the order of these results (an `_id` index scan, for example, returns ascending ids). The model fixes it to the collection's sequence order, so which company lands on which page of these listings is a modelling choice. The results that do not depend on order hold whatever the store picks: membership, the partition into followed and not-followed, the `page + 1` page number, and at most `limit` companies per page.
- Malformed ids: company, user and employer ids are assumed to be well-formed ObjectIds. The store casts each request string to an ObjectId before `findById`, `findByIdAndUpdate`, `findByIdAndDelete` and `find({ employerId })`. A malformed string fails that cast before any lookup, and the caller gets neither "Company not found" nor `NotFoundException`. The model does not represent that failure. Its `NotFound`, "Company not found" and "never fails" contracts are about well-formed ids.
- `CompanyService.CreateCompany`: the timestamp and the ObjectId are parameters. The model does not say how the clock or the id generator picks them.
