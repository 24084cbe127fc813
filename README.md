# GreenProof server core in Dafny

This project models the server core of GreenProof, a supply-chain sustainability registry. Producers register products. Each product has a supply chain of stages with per-stage carbon figures. Parties issue sustainability credentials (certifications) about those products. Verifiers verify or reject them, and issuers revoke them.

The model covers six parts of the server:

- the credential document: schema defaults, validators, the pre-save expiry hook, `addAuditEntry`, `verify` and `revoke`;
- the credential routes: create, list with filters, non-admin scoping and pagination, get by id, verify, reject and revoke;
- the product document: defaults, validators, the pre-save QR payload hook, the placeholder sustainability score and the supply-chain carbon total;
- the product routes: create with its SKU, list with filters, sort and pagination, get by id, get by QR payload, update, add a stage and delete;
- the dashboard routes `/overview` and `/analytics`;
- the carbon routes `/calculate` and `/dashboard`.

Each persisted document is a datatype value (`CredentialDoc`, `ProductDoc`). A collection is a sequence of them in insertion order, held by a store class (`CredentialStore`, `ProductStore`). A route handler that changes data is a method of the store class. It works the way the handler does:

- load the document into a mutable `Credential` or `Product` object;
- change that object with its own methods;
- run `save()`: validation, then the pre-save hook, then the write. The product write fails when it would break a unique index.

Every object method is specified by a pure function of the old document. For example, `Credential.Verify` ends in `VerifiedBy(old(Doc()), ...)`. The route methods state their status code and the new collection for every branch. Read-only routes are functions over the collections.

Inputs that come from outside the core are parameters: the request time `now`, new document ids, the uuid string, whether QR image rendering succeeds, and the Mongoose `strictQuery` setting. Quantities are unbounded integers.

Modules:
- `Common`: options, results, roles, status codes.
- `JsString`: `trim`, ASCII `toUpperCase`, decimal rendering.
- `Collections`: filter, stable sort, sum.
- `Paging`: skip/limit/page count.
- `CredentialModel` and `CredentialRoutes`.
- `ProductModel` and `ProductRoutes`.
- `Rollup`: per-key accumulators, map totals, rounded means.
- `Dashboard`.
- `CarbonRoutes`.

Where the code does something other than what its route doc-comments (the `@desc` lines) and schema comments lead a reader to expect, the model follows the code:

- **Credential create.** The code appends no `created` audit entry and ignores any status or issuer in the body. It does pass the body's `validityPeriod` through, so a caller can set `isExpired` and `issuedAt`.
- **Expiry check.** Expiry is examined only in the pre-save hook, never on load. A verified credential past its expiry is still returned as `verified` by the get route until its next save (`FetchDoesNotExpire`).
- **Validation failures.** They are thrown inside the handlers' `try` block, so they answer 500, not 400.
- **No modelled route sets `pending_verification`.** None of the credential, product, dashboard or carbon routes moves a credential to that status. So in any collection these routes alone build, verify always answers 400 (`NonePending` in `CredentialStore.Verify`). The separately mounted verification router may do so; it is not part of this model (see "Left out").
- **Verifying past expiry.** Verifying a pending credential whose expiry has passed saves it as `expired` (`VerifyPastExpiryEndsExpired`).
- **Product update.** `findByIdAndUpdate(id, body)` treats the body as a `$set` of the paths it names. It is not a full replace. It runs only the validators of those paths, does not run the pre-save hook and recomputes nothing. So replacing the stages leaves the stored carbon total stale (`PatchingStagesLeavesTotalStale`).
- **Dashboard producer filter.** The overview and analytics routes pass the producer filter `{ producer }` to the credentials collection too, but credentials have no `producer` path. What this returns depends on Mongoose's `strictQuery` setting: with it on, every credential; with it off, none.
- **Recent verifications.** The verifier overview's `recentVerifications` are the first five matches of an unsorted `find(...).limit(5)`, that is, in natural order. MongoDB does not guarantee natural order, but it is usually insertion order, so these are usually the oldest matches rather than the most recent. The model's collections are in insertion order, so there they are the five oldest.
- **Carbon `/calculate`.** The route has no ownership check. Any authenticated user can recalculate and save any product.
- **Product create.** Creation answers 500 when QR image rendering fails after the save, with the product already stored.

## Model

| member | source | states |
|---|---|---|
| JsString.Trim | server/models/Credential.js:5-9 | the `trim` setter drops leading and trailing ECMAScript white space: the result is a contiguous slice of the input, every dropped character is white space, and neither end of the result is |
| JsString.TrimOfTrimmed | server/models/Product.js:5-9 | a string already free of white space at both ends is unchanged by trimming |
| JsString.TrimIdempotent | server/models/Product.js:5-9 | trimming twice is trimming once, so a stored name is a fixed point of the setter |
| JsString.ToUpper | server/routes/products.js:18 | `toUpperCase` keeps the length and maps each ASCII lower-case letter to upper case, leaving other characters |
| JsString.Decimal | server/models/Product.js:202 | the rendering of `Date.now()` is a non-empty string of decimal digits without a leading zero |
| JsString.DecimalRoundTrip | server/models/Product.js:202 | parsing the rendered digits gives the number back |
| JsString.DecimalInjective | server/models/Product.js:202 | two instants render to the same digits only if they are equal |
| Collections.Filter | server/routes/credentials.js:71 | `find(filter)` keeps exactly the documents that match the filter, with the same multiplicities, in collection order |
| Collections.FilterAppend | server/routes/credentials.js:71 | filtering distributes over concatenation |
| Collections.FilterAll | server/routes/credentials.js:71 | filtering with a condition every element meets returns the collection itself |
| Collections.FilterNone | server/routes/dashboard.js:42-47 | filtering with a condition no element meets returns nothing |
| Collections.FilterExt | server/routes/dashboard.js:42-47 | conditions that accept the same elements select the same result |
| Collections.FilterFilter | server/routes/credentials.js:58-67 | filtering by one condition and then another is filtering by their conjunction |
| Collections.FilterDisjointCount | server/routes/dashboard.js:42-47 | two filters on mutually exclusive statuses select no more elements between them than the collection has |
| Collections.Insert | server/routes/credentials.js:76 | inserting into an ordered sequence keeps it ordered and adds exactly that element |
| Collections.Sort | server/routes/credentials.js:76 | `sort({ key: ±1 })` orders by the key in the direction asked and is a permutation of its input |
| Collections.SumOfAppend | server/models/Product.js:225-227 | a reduce-sum over a concatenation is the sum of the two sums |
| Collections.SumOfSnoc | server/models/Product.js:225-227 | appending one element adds exactly its value to the sum |
| Collections.SumOfBounds | server/models/Product.js:99-105 | n values each in [lo, hi] sum to between n·lo and n·hi |
| Paging.PageCount | server/routes/credentials.js:90 | `Math.ceil(total / limit)`: the least p with p·limit ≥ total for a positive limit, the matching ceiling for a negative one, and no number (null) exactly when the limit is 0 |
| Paging.Paginate | server/routes/credentials.js:69-91 | a negative skip `(page - 1) * limit` answers 500; otherwise the page holds `sorted[skip + k]` for each k, at most \|limit\| items (all remaining ones when the limit is 0), and reports page, limit, total and page count |
| Paging.Listing | server/routes/credentials.js:69-91 | a listing answers 500 exactly for a negative skip; otherwise its items are stored, selected and ordered, at most `limit` of them, and are exactly page `page` of an ordering of all selected documents; total counts the selection and pages is its ceiling |
| Paging.EverySelectedListed | server/routes/products.js:79-99 | with a positive limit, every selected document is on some page of the listing |
| Paging.PageOfSorted | server/routes/products.js:79-86 | a page of an ordered result is ordered and holds only items of that result |
| Paging.PageHolds | server/routes/products.js:79-86 | with a positive limit, the item at position q·limit + rem of the result is item rem of page q + 1 |
| Paging.EveryItemOnItsPage | server/routes/products.js:79-99 | with a positive limit, item k appears on page k / limit + 1 at position k mod limit, and that page is within the reported page count |
| Collections.MapSeq | server/models/Credential.js:82-130 | casting an array field maps each element in order and keeps the length |
| Collections.FindFirst | server/routes/products.js:146 | the first position whose key matches, or none when no element's key does |
| CredentialModel.EvidenceOf | server/models/Credential.js:99-102 | an evidence item's `uploadedAt` defaults to the creation time |
| CredentialModel.RequirementOf | server/models/Credential.js:119-122 | a requirement's `isMet` defaults to false |
| CredentialModel.MapEvidence | server/models/Credential.js:82-109 | the evidence array is cast item by item, in order |
| CredentialModel.MapRequirements | server/models/Credential.js:116-130 | the requirements array is cast item by item, in order |
| CredentialModel.ValidDoc | server/models/Credential.js:5-152 | the save-time validators: name, Guardian policy id and criteria standard non-empty, and a verification score, when present, within [0, 100] |
| CredentialModel.NewCredential | server/models/Credential.js:56-81 | construction succeeds exactly when the required paths are present; the new document is a valid `draft` with the given issuer, and the supplied type, holder, product, Guardian policy id, expiry, criteria standard and version; `isExpired` and `issuedAt` default to false and now unless supplied; the evidence and requirements are the supplied arrays cast item by item; there is no verification block, the trail is empty and the name is trimmed |
| CredentialModel.CheckExpiry | server/models/Credential.js:204-215 | past `expiresAt` the flag is set and `verified` becomes `expired`; before it nothing changes; the hook never changes any other status, and touches nothing but status and the flag |
| CredentialModel.WithAuditEntry | server/models/Credential.js:218-231 | appends exactly one entry with the given action, performer and timestamp and notes defaulting to "", keeps the earlier entries and changes no other field |
| CredentialModel.VerifiedBy | server/models/Credential.js:234-244 | status `verified`, the verification block holds verifier, time, method, notes and score, one `verified` entry by the verifier is appended, nothing else changes |
| CredentialModel.RevokedBy | server/models/Credential.js:247-250 | status `revoked` and one `revoked` entry with the reason as notes; no other field changes |
| CredentialModel.Credential.Load | server/routes/credentials.js:160 | a document read by `findById` hydrates into an object whose document is exactly the stored one |
| CredentialModel.Credential.PreSave | server/models/Credential.js:204-215 | the in-place hook leaves the document equal to `CheckExpiry` of the old one |
| CredentialModel.Credential.AddAuditEntry | server/models/Credential.js:218-231 | the in-place push leaves the document equal to `WithAuditEntry` of the old one |
| CredentialModel.Credential.Verify | server/models/Credential.js:234-244 | the in-place method leaves the document equal to `VerifiedBy` of the old one |
| CredentialModel.Credential.Revoke | server/models/Credential.js:247-250 | the in-place method leaves the document equal to `RevokedBy` of the old one |
| CredentialModel.CheckExpiryIdempotent | server/models/Credential.js:204-215 | running the hook twice at one instant is running it once |
| CredentialModel.CheckExpirySticky | server/models/Credential.js:209 | once set, the expired flag survives every later save |
| CredentialModel.NoVerifiedPastExpiry | server/models/Credential.js:205-212 | after a save past its expiry a credential is flagged and not `verified` |
| CredentialModel.CheckExpiryKeepsValid | server/models/Credential.js:204-215 | the hook keeps a valid document valid and leaves the audit trail alone |
| CredentialModel.VerifiedByValid | server/models/Credential.js:148-152 | a verified document passes validation exactly when its score is absent or in [0, 100] |
| CredentialModel.VerifyPastExpiryEndsExpired | server/routes/credentials.js:176-177 | verifying and saving a credential already past its expiry ends in `expired`, with the verification block and the `verified` entry kept |
| CredentialRoutes.IndexOf | server/routes/credentials.js:108 | `findById` finds the first document with the id, or reports that none has it |
| CredentialRoutes.Visible | server/routes/credentials.js:124-133 | a requester may see a credential when an admin, its issuer or its holder; the list route's `$or` scope is the same condition |
| CredentialRoutes.MayRevoke | server/routes/credentials.js:250-253 | a requester may revoke a credential when an admin or its issuer |
| CredentialRoutes.GetCredential | server/routes/credentials.js:106-147 | 404 exactly when the id is unknown, 403 when the requester is neither admin, issuer nor holder, otherwise the stored document |
| CredentialRoutes.FetchDoesNotExpire | server/routes/credentials.js:106-139 | reading runs no expiry check: a verified credential past its expiry is returned still `verified` |
| CredentialRoutes.MatchesQuery | server/routes/credentials.js:58-62 | a credential matches each given filter: equal type, status, issuer and holder; an absent or empty filter matches everything |
| CredentialRoutes.Selected | server/routes/credentials.js:58-67 | the whole list filter: the query's fields and, for a non-admin, the issuer-or-holder scope |
| CredentialRoutes.ListCredentials | server/routes/credentials.js:54-101 | every listed credential is stored, matches each given type/status/issuer/holder and is visible to the requester; items are newest first, at most `limit` of them, and are exactly page `page` of an ordering, newest first, of all matching visible credentials; total counts all matches; pages is the ceiling; a negative skip answers 500 |
| CredentialRoutes.EveryMatchListed | server/routes/credentials.js:69-91 | with a positive limit, every credential the query selects for the requester appears on some page of the listing |
| CredentialRoutes.AdminSeesAll | server/routes/credentials.js:64-67 | an admin's unfiltered listing counts the whole collection |
| CredentialRoutes.InputOf | server/routes/credentials.js:23-33 | the constructor input takes the requester as issuer |
| CredentialRoutes.CreatedByRequester | server/routes/credentials.js:10-35 | whatever the body names, a created credential is issued by the requester, in `draft`, with an empty trail, its expired flag set by the body or by a past expiry |
| CredentialRoutes.RejectedBy | server/routes/credentials.js:214-215 | status `rejected` from any status, exactly one `rejected` entry carrying the reason appended, no other field changed |
| CredentialRoutes.AppendFresh | server/routes/credentials.js:35 | saving a new credential under an unused id keeps ids distinct and every document valid, leaves the earlier trails as they were, and adds no pending credential unless the new one is pending |
| CredentialRoutes.CredentialStore.Save | server/routes/credentials.js:177 | a valid document is run through the expiry hook and written back in place; an invalid one answers 500 and changes nothing |
| CredentialRoutes.CredentialStore.Create | server/routes/credentials.js:10-49 | 403 unless producer or admin; 500 and nothing stored when a required path is missing or the id is taken; otherwise 201 and exactly the new document appended after its hook; trails only grow and no credential becomes pending |
| CredentialRoutes.CredentialStore.Verify | server/routes/credentials.js:152-192 | 403 unless verifier or admin, 404, 400 with nothing changed unless pending, 500 for a score outside [0, 100], otherwise 200 with `VerifiedBy` by the requester saved; with no pending credential it never succeeds |
| CredentialRoutes.CredentialStore.Reject | server/routes/credentials.js:197-231 | 403 unless verifier or admin, 404, otherwise 200 with `RejectedBy` saved whatever the current status |
| CredentialRoutes.CredentialStore.Revoke | server/routes/credentials.js:236-275 | 404, 403 unless admin or issuer, otherwise 200 with `RevokedBy` saved; no role or status gate |
| ProductModel.CategoryFromName | server/models/Product.js:19-31 | the category enum accepts exactly the seven stored names |
| ProductModel.CategoryNameRoundTrip | server/models/Product.js:19-31 | every category passes the enum check as itself |
| ProductModel.ValidDoc | server/models/Product.js:5-122 | the save-time validators: name, description and SKU non-empty, and every sub-score within [0, 100] |
| ProductModel.NewProduct | server/models/Product.js:99-155 | a new product is `draft` with all four sub-scores 0, no stages, no QR payload, a zero total, the requester as producer and a trimmed name; it is valid exactly when name, description and SKU are non-empty |
| ProductModel.QrPayload | server/models/Product.js:202 | the payload is `GP-`, the SKU, `-` and the decimal timestamp |
| ProductModel.QrPayloadInjective | server/models/Product.js:202 | distinct (SKU, instant) pairs never yield the same payload |
| ProductModel.WithQrCode | server/models/Product.js:200-205 | a payload is generated only when none is set; an existing one is kept; afterwards one is always set |
| ProductModel.QrCodeStable | server/models/Product.js:200-205 | the hook is idempotent: later saves never change a stored payload |
| ProductModel.StageEvidenceOf | server/models/Product.js:83-94 | a stage evidence item keeps its type, URL and description, and keeps a supplied `uploadedAt`; only when the body leaves it out does it default to the time the stage is added |
| ProductModel.MapStageEvidence | server/models/Product.js:83-96 | a stage's evidence array is cast item by item, in order, each keeping a supplied `uploadedAt` |
| ProductModel.StageOf | server/models/Product.js:46-98 | a pushed stage keeps its kind, location, data source, carbon value and calculation method, is stamped now, has its evidence cast item by item (each item's supplied `uploadedAt` kept, a missing one set to now), and its carbon unit is the supplied one, or "kg CO2e" when no unit (or no footprint) is supplied |
| ProductModel.StageCarbon | server/models/Product.js:226 | a stage contributes its carbon value, or 0 when it has none |
| ProductModel.TotalCarbon | server/models/Product.js:224-227 | the supply chain's total is the sum of its stages' contributions |
| ProductModel.TotalCarbonEmpty | server/models/Product.js:225-227 | an empty supply chain totals 0 |
| ProductModel.TotalCarbonAppend | server/models/Product.js:225-227 | appending a stage raises the total by exactly that stage's value, a missing one counting 0 |
| ProductModel.PlaceholderScore | server/models/Product.js:208-221 | every placeholder sub-score lies in [0, 100] |
| ProductModel.Product.Load | server/routes/products.js:223 | a document read by `findById` hydrates into an object whose document is exactly the stored one |
| ProductModel.Product.PreSave | server/models/Product.js:200-205 | the in-place hook leaves the document equal to `WithQrCode` of the old one |
| ProductModel.Product.CalculateSustainabilityScore | server/models/Product.js:208-221 | returns the constant placeholder score whatever the product holds, and changes nothing |
| ProductModel.Product.CalculateTotalCarbonFootprint | server/models/Product.js:224-236 | returns the sum of the stage values and stores it with unit "kg CO2e" and the calculation time, changing nothing else |
| ProductModel.Product.PushStage | server/routes/products.js:243-249 | the stage is appended as the last one and the earlier stages are kept |
| ProductRoutes.UniqueAppend | server/models/Product.js:32-40 | appending a document that clashes with no stored id, SKU or payload keeps the unique indexes |
| ProductRoutes.AppendKeepsDocs | server/routes/products.js:33 | saving a new valid product keeps every product valid, and one whose total matches its stages keeps every total up to date |
| ProductRoutes.UniqueReplace | server/models/Product.js:32-40 | rewriting a document in place without a clash keeps the unique indexes |
| ProductRoutes.RemoveKeepsDocs | server/routes/products.js:299 | deleting a product leaves the others valid and their totals up to date |
| ProductRoutes.UniqueRemove | server/routes/products.js:299 | deleting a document keeps the unique indexes |
| ProductRoutes.IndexOf | server/routes/products.js:116 | `findById` finds the first document with the id, or reports that none has it |
| ProductRoutes.IndexOfQr | server/routes/products.js:146 | `findOne({ qrCode })` finds the first document with the payload, or reports that none has it |
| ProductRoutes.MayEdit | server/routes/products.js:186-189 | a requester may change a product when its producer or an admin (the same check guards update, add-stage and delete) |
| ProductRoutes.GetProduct | server/routes/products.js:114-139 | 404 exactly when no product has the id, otherwise a stored product with that id |
| ProductRoutes.GetProductByQr | server/routes/products.js:144-169 | 404 exactly when no product has the payload, otherwise a stored product with it |
| ProductRoutes.LookupsFindStored | server/routes/products.js:144-169 | under the unique indexes a stored product is what its payload and its id look up |
| ProductRoutes.MatchesQuery | server/routes/products.js:71-74 | a product matches each given filter: category name, producer and status name equal; an absent or empty filter matches everything |
| ProductRoutes.SortKey | server/routes/products.js:76-77 | each sortable field names the key the documents are ordered on: creation time, update time, carbon total or overall score |
| ProductRoutes.SortOf | server/routes/products.js:67-77 | the sort key is the requested field, `createdAt` by default |
| ProductRoutes.Descending | server/routes/products.js:68-77 | the order is descending exactly when `sortOrder` is "desc", which is the default |
| ProductRoutes.ListProducts | server/routes/products.js:59-109 | every listed product is stored and matches each given category/producer/status; items are ordered on the sort field, descending exactly when `sortOrder` is "desc" (the default); at most `limit` of them, and are exactly page `page` of such an ordering of all matching products; total counts all matches; pages is the ceiling; a negative skip answers 500 |
| ProductRoutes.EveryMatchListed | server/routes/products.js:79-99 | with a positive limit, every product the filter matches appears on some page of the listing |
| ProductRoutes.UnfilteredListCountsAll | server/routes/products.js:71-88 | with no filter the total is the size of the collection |
| ProductRoutes.Sku | server/routes/products.js:18-21 | the SKU is `GP-`, the upper-cased category, `-`, the decimal timestamp, `-` and the first eight characters of the uuid |
| ProductRoutes.PatchValid | server/routes/products.js:196-200 | `runValidators` checks only the supplied paths: a trimmed name, description and SKU non-empty, a known category, sub-scores within [0, 100] |
| ProductRoutes.Patched | server/routes/products.js:196-200 | the update sets each supplied path (name through `trim`, description, category, SKU, QR payload, producer, status, score, stages) and keeps each absent one, stamps `updatedAt`, changes no other field (id, creation time, carbon total), recomputes neither payload nor total, and keeps a valid document valid when the supplied paths pass their validators |
| ProductRoutes.EmptyPatchTouchesOnly | server/routes/products.js:196-200 | an empty update body changes only `updatedAt` |
| ProductRoutes.PatchingStagesLeavesTotalStale | server/routes/products.js:196-200 | for a consistent product and any valid update that replaces the stages, the product stays consistent exactly when the new stages have the old total; otherwise the stored total disagrees with them |
| ProductRoutes.StalePatchExists | server/routes/products.js:196-200 | such updates exist: one stage of 5 over a product with no stages leaves the total stale |
| ProductRoutes.AfterStage | server/routes/products.js:243-258 | after adding a stage, the chain gained exactly it at the end, the total equals the old sum plus its value and agrees with the chain, the score is the placeholder, and a stored payload is kept |
| ProductRoutes.ProductStore.Save | server/routes/products.js:258 | a valid document gets its hook and `updatedAt` and is written in place unless a unique index clashes; otherwise 500 and nothing changes |
| ProductRoutes.ProductStore.Create | server/routes/products.js:12-54 | 403 unless producer or admin; 500 with nothing stored for a missing or unknown category, a failed validator or an index clash; otherwise the new product with its SKU, requester as producer and generated payload is appended, answering 201, or 500 if QR rendering fails |
| ProductRoutes.ProductStore.Update | server/routes/products.js:174-214 | 404, 403 unless producer or admin, 500 for a failing validator or clash, otherwise 200 with `Patched` written; totals stay consistent unless the stages are replaced |
| ProductRoutes.ProductStore.AddStage | server/routes/products.js:219-272 | 404, 403 unless producer or admin, otherwise `AfterStage` written and 200 whenever the product already has a payload; totals stay consistent |
| ProductRoutes.ProductStore.Delete | server/routes/products.js:277-312 | 404, 403 unless producer or admin, otherwise 200 and exactly that product removed, the others kept in order |
| Rollup.Bump | server/routes/dashboard.js:97-98 | `acc[k] = (acc[k] \|\| 0) + v` adds v to bucket k, creating it at 0 if absent, and changes no other bucket |
| Rollup.Tally | server/routes/dashboard.js:95-100 | the accumulator loop computes the left fold `TallyOf` of the sequence |
| Rollup.TallyKeys | server/routes/dashboard.js:95-100 | a bucket exists exactly for the keys some element has |
| Rollup.TallyBucket | server/routes/dashboard.js:95-100 | each bucket holds the summed weight of exactly the elements with that key |
| Rollup.TallyConserves | server/routes/dashboard.js:95-100 | the buckets sum to the total weight of the sequence |
| Rollup.SumOfOnes | server/routes/dashboard.js:105 | adding 1 per element counts the elements |
| Rollup.CountsConserve | server/routes/dashboard.js:103-114 | per-type and per-status counts sum to the number of credentials |
| Rollup.RoundedMean | server/routes/dashboard.js:57-65 | 0 with nothing to average, otherwise `Math.round(sum / n)`, the integer r with r − ½ ≤ sum / n < r + ½ |
| Rollup.RoundedMeanNearest | server/routes/dashboard.js:59-64 | no integer is nearer to the mean than the rounded one |
| Rollup.RoundedMeanWithin | server/routes/dashboard.js:59-64 | the rounded mean of values in [lo, hi] lies in [lo, hi] |
| Dashboard.ScopeOf | server/routes/dashboard.js:14-20 | a producer is scoped to its own id; admins, consumers and verifiers get the empty filter |
| Dashboard.ProductsIn | server/routes/dashboard.js:35 | `Product.find(filter)`: every product for an unscoped requester, and exactly the requester's own products for a producer |
| Dashboard.CredentialsIn | server/routes/dashboard.js:36 | `Credential.find(filter)` with the producer filter: every credential when unscoped or when `strictQuery` drops the unknown path, none otherwise |
| Dashboard.GetOverview | server/routes/dashboard.js:12-75 | a verifier gets the count of credentials it verified and the first at most five of them; every other role gets product and credential counts in its scope, verified and pending counts that together do not exceed the total, the carbon sum and the rounded mean score, 0 with no products |
| Dashboard.OverviewScoping | server/routes/dashboard.js:14-36 | a producer's overview counts only its own products; an admin's or consumer's counts every product and credential |
| Dashboard.ProducerCredentialFigures | server/routes/dashboard.js:36 | for a producer the credential counts cover every credential under `strictQuery` and are zero without it |
| Dashboard.OverviewAverageInRange | server/routes/dashboard.js:57-65 | over valid products the average score lies in [0, 100] |
| Dashboard.AverageInRange | server/routes/dashboard.js:57-65 | the rounded mean of overall scores from valid products lies in [0, 100] |
| Dashboard.GetAnalytics | server/routes/dashboard.js:80-133 | carbon by category, credentials by type and by status are the accumulator folds over the scoped documents; the two credential tallies each sum to the credential total and the category tally to the scoped carbon sum |
| Dashboard.AnalyticsAgreesWithOverview | server/routes/dashboard.js:110-114 | the analytics `verified` bucket equals the overview's verified count, and is absent exactly when that count is 0 |
| Dashboard.VerifiedBucket | server/routes/dashboard.js:110-114 | the `verified` status bucket counts the verified credentials |
| Dashboard.VerifiedBucketPresent | server/routes/dashboard.js:110-114 | a present `verified` bucket holds the number of verified credentials |
| Dashboard.VerifiedBucketAbsent | server/routes/dashboard.js:110-114 | an absent `verified` bucket means no credential is verified |
| CarbonRoutes.Breakdown | server/routes/carbon.js:36-40 | one entry per stage, in stage order, copying kind, carbon footprint and location |
| CarbonRoutes.BreakdownSumsToTotal | server/routes/carbon.js:34-40 | the breakdown's carbon values add up to the returned total |
| CarbonRoutes.Recalculated | server/routes/carbon.js:23-29 | the saved product's total agrees with its stages, its score is the placeholder, stages, id, SKU, producer and a stored payload are kept |
| CarbonRoutes.RecalculateIdempotent | server/routes/carbon.js:23-29 | recalculating again changes only the calculation and update timestamps |
| CarbonRoutes.RecalculateKeepsConsistentTotal | server/routes/carbon.js:23 | on a product whose total is up to date the recalculated value is unchanged |
| CarbonRoutes.Calculate | server/routes/carbon.js:10-50 | 404 for an unknown id; otherwise the recalculated product is saved and answered with its total, equal to the sum of the stage values, its score and a breakdown of one entry per stage; 500 on an index clash; no ownership check |
| CarbonRoutes.GetCarbonDashboard | server/routes/carbon.js:55-95 | only the requester's own products are counted; the total is their carbon sum, the average their rounded mean score (0 when none), and the per-category buckets sum to the total and name only categories of those products |
| CarbonRoutes.DashboardAverageInRange | server/routes/carbon.js:66-79 | over valid products the dashboard's average lies in [0, 100] |

## Left out

- HTTP, Express routing, the `auth` middleware's token check (401), CORS, rate limiting and the JSON envelope. Each route is a method or function that returns the status code and the data.
- The `authorize` middleware (server/middleware/auth.js) is not part of this model. It is taken to answer 403 when the role is not listed.
- `populate` joins. In the list route they change only what a response shows. In the get route (server/routes/credentials.js:107-115, 124-128) a non-admin request for a credential whose issuer or holder no longer exists makes `credential.issuer._id` throw, answering 500.
- CredentialRoutes.GetCredential: does not answer 500 for a dangling issuer or holder reference, because users are never deleted in the model.
- Malformed ObjectIds, which make Mongoose throw a cast error (500). Ids are opaque strings.
- Enum checks of raw strings for credential type, credential status, stage kind, data source and evidence type. These fields are datatypes, so invalid values cannot be written. Product categories and the product list filters' category and status are kept as strings and checked explicitly. The model therefore does not capture these error paths:
  - CredentialRoutes.CredentialStore.Verify: a `method` outside the enum of server/models/Credential.js:138-146 makes `save()` throw (500). The method parameter is a `VerificationMethod`, so that case is not representable.
  - ProductRoutes.ProductStore.Update: an update body whose `status` is outside the enum of server/models/Product.js:145-155 fails its validator (500). `ProductPatch.status` is a `ProductStatus`, so that case is not representable.
  - CredentialRoutes.ListCredentials: a `type` or `status` query string outside the enums matches no credential, so it gives an empty page with total 0. `CredentialQuery` holds datatypes, so that case is not representable.
- Schema fields no core operation reads:
  - on credentials: `guardianCredentialId`, `hederaTokenId`, `impact`, `metadata`, the audit entries' `changes`;
  - on products: `hederaTokenId`, `certifications`, `images`, `specifications`, `pricing`, `metadata`;
  - the unique indexes on `guardianCredentialId` and `hederaTokenId`.
- The update body is modelled as a `$set` of name, description, category, SKU, QR payload, producer, status, score and stages. Other paths are not modelled, and neither are update operators (`$push`, `$unset`) in the body.
- server/routes/verification.js, mounted at `/api/verification` (server/index.js:14, 72), is not part of this model. The model does not say what it does to credentials, in particular whether it moves them to `pending_verification`.
- Credentials' `updatedAt` timestamp, and `createdAt` on product updates. Products' `updatedAt` is modelled.
- JavaScript numbers are floating point. Carbon values, scores and timestamps are integers here, and `Math.round` is exact rational rounding.
- The `|| 0` fallback for a missing total or overall score in the rollups. Those paths always hold their default in the model.
- Ordering among equal sort keys. MongoDB leaves it unspecified; the model's stable sort keeps collection order.
- Sorting on a field that is not a number or a date. Only `createdAt`, `updatedAt`, the carbon total and the overall score are modelled as `sortBy` values.
- `parseInt` of non-numeric `page` or `limit` strings. Query numbers arrive as integers.
- `trim`'s white space is the ECMAScript set. `toUpperCase` covers ASCII only, which is enough for the category names.
- The QR image rendering (server/utils/qrCode.js is not part of this model). Only its success or failure is a parameter.
- `timeframe` in the analytics and carbon dashboards. It is read but never used.
- server/models/User.js, server/index.js, server/utils/database.js and the React frontend are not part of this model.
- Concurrency between requests. Each route runs atomically on the collection.
