# Student Starter Platform: a Dafny model of its core logic

Student Starter Platform connects students with opportunities that
organizations post (internships, fellowships and similar). An Express
backend keeps users, opportunities and banner images in a hosted store.
It identifies callers through an Auth0 bearer token. A React frontend
lets students search and bookmark opportunities, organizations create
and edit them, and administrators verify users and close listings.

This project models the parts of that system that decide something. Each
module follows one source file (the helper modules follow JavaScript
built-ins):

- `AuthSync` (backend/routes/auth.js) is the user sync handler.
  - A bearer token becomes the caller's users row: a placeholder row on
    the first request for a subject, the stored row on later ones, and a
    409 when the claimed role differs from the stored one.
  - The process-wide lock table is a field of `SyncService`.
  - `Reconcile` specifies one request. The lemmas prove:
    - at most one row per subject;
    - stored rows and roles never change;
    - repeating a request is idempotent;
    - every lock is released.
- `ApiCache` (frontend/src/lib/apiCache.js) is the frontend's TTL cache.
  It holds a map of entries with expiry times, and the clock is a
  parameter.
- `BannerUpload` (backend/routes/upload.js) is the banner upload route:
  - the multipart stage;
  - `getOrgUser`, which takes the subject from the token first and from
    userinfo second, and refuses a non-organization;
  - the chain of validation and ownership checks;
  - the storage path;
  - the upload and the row update.
- `ImageUpload` (frontend/src/components/ImageUpload.jsx) is the upload
  widget's state machine. A lemma proves that it agrees with the server's
  limits.
- `OpportunitiesFeed`, `OpportunityForm`, `Discover`, `Listings`,
  `AdminDashboard` and `OrgDashboard` are the React pages' state updates:
  - search filter and bookmark toggle;
  - duplicate-free majors, form loading and submit payload;
  - filter toggles and the search parameter;
  - verify and close updates, and the active-only list.
- `Students` (backend/routes/students.js) is the PATCH route: a loop drops
  empty-string fields from the body before the update.
- `OrgRoutes` (backend/routes/org.js) covers two routes:
  - creating an opportunity, with the comma-separated majors split and
    trimmed and the owner taken from the caller;
  - the soft delete.
- `Json`, `Text`, `Lists` and `Identity` model the JavaScript semantics
  these modules rely on:
  - truthiness and property access;
  - `trim`, `toLowerCase`, `includes` and `split`;
  - `filter` and the add-or-remove toggle;
  - the bearer token and the role claim.

Every network and store call is a parameter. The identity provider's
answers are functions from token to profile. The stores' answers are maps
plus failure flags. The server's answer to an upload and the current time
are also parameters.

## Model

| member | source | states |
|---|---|---|
| Identity.BearerToken | backend/routes/upload.js:56 | there is a token exactly when the header has a space; the token is then the text between the first space and the next space (or the end), so it never contains a space |
| Identity.ClaimedRole | backend/routes/auth.js:44 | the claimed role is the namespaced role claim when truthy, otherwise "student"; never empty |
| AuthSync.Status | backend/routes/auth.js:14-122 | each response's HTTP status: 200 exactly for a sync, 409 exactly for a role conflict, 401 exactly for a missing token or a failed profile fetch |
| AuthSync.ConflictMessage | backend/routes/auth.js:85-89 | the conflict message names the stored role, and ends with "an organization." when the claimed role is "org", otherwise "a student." |
| AuthSync.FetchProfile | backend/routes/auth.js:17-37 | the userinfo answer, when there is one, is the profile used; otherwise the token's locally decoded payload; with no token there is no profile |
| AuthSync.Identify | backend/routes/auth.js:12-44 | no truthy header gives NoHeader; otherwise no profile gives NoProfile, a null profile NullPayload, a profile without a truthy sub NoSubject, and a profile with one identifies the caller by that sub and the claimed role |
| AuthSync.UserinfoFirst | backend/routes/auth.js:21-37 | when userinfo answers, the local token decode has no influence on the caller |
| AuthSync.Reconcile | backend/routes/auth.js:12-118 | one request as a specification: no header gives 401 with nothing written; an unidentified caller gets 400/401/500 and writes nothing; no stored row ever changes; at most one row is added, the caller's placeholder row with the claimed role; a conflict reports both roles and writes nothing; a stored row with the claimed role is returned unchanged; a failed lookup, or a failed insert for an unseen subject, is a 500 that writes nothing; a locked subject gets a fresh lookup without a role check; the table invariant is preserved |
| AuthSync.FirstSyncCreates | backend/routes/auth.js:92-113 | a first request for an unseen subject creates and returns the row with auth_id = subject, email and name "N/A", and the claimed role |
| AuthSync.SyncIdempotent | backend/routes/auth.js:83-91 | repeating a successful request returns the same row and writes nothing |
| AuthSync.ReplayKeepsRows | backend/routes/auth.js:83-111 | over any sequence of requests, every stored row survives unchanged and each subject still has at most one row with a distinct id |
| AuthSync.RoleNeverChanges | backend/routes/auth.js:85-90 | once a subject has a row, a later request claiming another role gets 409, however many requests ran in between |
| AuthSync.SyncService.constructor | backend/routes/auth.js:8 | the service starts with an empty users table and no locks |
| AuthSync.SyncService.Sync | backend/routes/auth.js:10-118 | the handler's response and new table are exactly `Reconcile`'s; the lock table is as before on every exit; the table invariant is kept |
| AuthSync.SyncService.IdentifyCaller | backend/routes/auth.js:12-44 | the handler's step-by-step identification yields exactly the outcome `Identify` specifies |
| AuthSync.SyncService.InsertUser | backend/routes/auth.js:93-110 | inserting the placeholder row under the caller's subject, with the next id, keeps the invariant |
| ApiCache.MakeKey | frontend/src/lib/apiCache.js:3-5 | string keys are used unchanged |
| ApiCache.MakeKeyNotInjective | frontend/src/lib/apiCache.js:3-5 | a string and a value that serialises to the same text share one entry |
| ApiCache.Lookup | frontend/src/lib/apiCache.js:7-16 | an absent key misses; a hit returns the stored data; an entry is live up to and including its expiry instant and misses once the clock is past it |
| ApiCache.Purged | frontend/src/lib/apiCache.js:11-14 | a read removes the key exactly when its entry is expired and changes nothing else |
| ApiCache.Stored | frontend/src/lib/apiCache.js:18-21 | a write adds or overwrites the key with expiry now + ttl and leaves every other key unchanged |
| ApiCache.StoredIsServedUntilExpiry | frontend/src/lib/apiCache.js:7-21 | a value written at `now` is served at every time up to now + ttl, and not afterwards |
| ApiCache.DefaultTtlServesTwoMinutes | frontend/src/lib/apiCache.js:18-20 | with the default ttl a value written at a positive clock reading is served exactly through the next 120000 ms |
| ApiCache.MissIsStable | frontend/src/lib/apiCache.js:9-14 | after a miss the key is gone or still expired, so a later read misses too |
| ApiCache.Cache.constructor | frontend/src/lib/apiCache.js:1 | the cache starts empty |
| ApiCache.Cache.Get | frontend/src/lib/apiCache.js:7-16 | `getCached` returns `Lookup` and leaves the entries `Purged` |
| ApiCache.Cache.Set | frontend/src/lib/apiCache.js:18-21 | `setCached` leaves the entries `Stored`, with a ttl of 120000 ms unless one is given |
| ApiCache.Cache.Clear | frontend/src/lib/apiCache.js:23-26 | `clearCached` removes exactly that key |
| ApiCache.Cache.ClearAll | frontend/src/lib/apiCache.js:28-30 | `clearAllCached` leaves the cache empty |
| ApiCache.Cache.FetchWithCache | frontend/src/lib/apiCache.js:32-47 | a live entry is returned without using the response; a failed response throws its text, or "Request failed: status" when the text is empty, and caches nothing; a body is returned and cached under the same key with the given ttl, 120000 ms by default; the cache is consulted unless skipCache is true |
| BannerUpload.FileFilter | backend/routes/upload.js:12-19 | exactly image/jpeg, image/png, image/webp and image/gif pass |
| BannerUpload.MultipartError | backend/routes/upload.js:9-20 | a body passes the multipart stage exactly when it has no file, or a file of an accepted type of at most 5 MB |
| BannerUpload.ErrorStatus | backend/routes/upload.js:126-132 | a thrown error is 400 exactly when its message includes "Invalid file type", and 500 otherwise |
| BannerUpload.WithoutCapitalIIs500 | backend/routes/upload.js:128-131 | a message without a capital I maps to 500 |
| BannerUpload.TokenSubject | backend/routes/upload.js:24-40 | the subject is the token's own truthy sub; only without one is userinfo asked, whose failure and null body are errors and whose sub (possibly missing) is used otherwise |
| BannerUpload.GetOrgUser | backend/routes/upload.js:23-51 | succeeds exactly when the token's subject resolves, the lookup succeeds and the subject's row has role "org", and then returns that row; an unresolved subject passes its error on; a failed lookup or a missing row is "User not found" |
| BannerUpload.LocalDecodeFirst | backend/routes/upload.js:24-40 | when the token's own payload has a subject, userinfo is not consulted |
| BannerUpload.NonOrgRefused | backend/routes/upload.js:48-49 | a resolved user whose role is not "org" is refused |
| BannerUpload.OrgUserErrorsAre500 | backend/routes/upload.js:59 | every error of `getOrgUser` ends as 500, never as the 400 of an invalid file type |
| BannerUpload.Extension | backend/routes/upload.js:91 | the extension is the non-empty text after the last dot, or the whole name without a dot; "jpg" exactly when that text is empty |
| BannerUpload.StoragePath | backend/routes/upload.js:92 | the path starts with "<entity_type>s/" and ends with "/banner.<ext>" |
| BannerUpload.StoragePathParts | backend/routes/upload.js:92 | splitting the path on '/' gives back the entity folder, the entity id and the file name |
| BannerUpload.StoragePathInjective | backend/routes/upload.js:92 | distinct entities (slash-free ids) never share a storage path |
| BannerUpload.Decide | backend/routes/upload.js:54-92 | a refused file is 500, a missing token 401, a failed `getOrgUser` 500, missing fields 400, an unknown entity type 400, a missing file 400, each with the route's message; the request proceeds exactly when every check passes and the caller owns the entity, with the valid file at the path built from the fields |
| BannerUpload.Authorize | backend/routes/upload.js:73-92 | goes ahead exactly when the caller owns the entity; another org's id is 403, a failed or empty opportunity lookup 404, another org's opportunity 403; the go-ahead records on the users table for an org and the opportunities table for an opportunity |
| BannerUpload.MissingTokenIs401 | backend/routes/upload.js:56-57 | without a token the request is refused, with 401 unless the multipart stage refused it first |
| BannerUpload.ProceedOnlyForOwner | backend/routes/upload.js:73-88 | an org upload proceeds only for the caller's own id; an opportunity upload only for an existing opportunity whose org_id is the caller's id |
| BannerUpload.FieldsCheckedBeforeFile | backend/routes/upload.js:62-70 | a missing entity_type or entity_id is reported with 400 before the file is checked |
| BannerUpload.Thrown | backend/routes/upload.js:126-132 | an error after the checks is answered with `ErrorStatus` and its own message when it has one |
| BannerUpload.BannerStore.constructor | backend/routes/upload.js:94-123 | the bucket and the banner columns start empty |
| BannerUpload.BannerStore.PostBanner | backend/routes/upload.js:54-133 | a rejected request writes nothing; a failed upload writes nothing; otherwise the file is stored under the decided path, and only when the row update succeeds is the public URL recorded on exactly the entity's row and returned; the reply is 200 exactly when the checks pass and neither write fails |
| ImageUpload.FileError | frontend/src/components/ImageUpload.jsx:21-28 | a picked file is refused exactly when its type is not allowed (type error first) or it exceeds 5 MB |
| ImageUpload.SizeBoundary | frontend/src/components/ImageUpload.jsx:25-28 | a file of exactly 5 MB is accepted and one byte more is refused |
| ImageUpload.ClientMatchesServer | frontend/src/components/ImageUpload.jsx:5-6 | the widget's types and limit equal the server's, and the widget accepts a file exactly when the server's multipart stage does |
| ImageUpload.Uploader.constructor | frontend/src/components/ImageUpload.jsx:9-12 | no preview, no selection, not uploading, no error |
| ImageUpload.Uploader.HandleFileSelect | frontend/src/components/ImageUpload.jsx:15-32 | no file changes nothing; a refused file sets the error and keeps the selection; an accepted file is selected and previewed with no error |
| ImageUpload.Uploader.HandleUpload | frontend/src/components/ImageUpload.jsx:34-67 | nothing happens without a selection or an entity id; success hands out the URL and clears selection and preview; failure keeps the selection and shows the error; uploading ends false |
| ImageUpload.Uploader.HandleCancel | frontend/src/components/ImageUpload.jsx:69-74 | selection, preview and error are cleared |
| ImageUpload.Uploader.DisplayUrl | frontend/src/components/ImageUpload.jsx:76 | the preview while there is one, otherwise the current URL |
| OpportunitiesFeed.SearchTerm | frontend/src/components/OpportunitiesFeed.jsx:127 | a missing search is the empty term; otherwise the search lowercased character by character |
| OpportunitiesFeed.Filtered | frontend/src/components/OpportunitiesFeed.jsx:126-134 | the list shown is an order-preserving subsequence, and an opportunity is in it exactly when the term occurs in its lowercased title, description or a major, or in its GPA text; each match is kept as often as it occurs |
| OpportunitiesFeed.EmptySearchKeepsTitled | frontend/src/components/OpportunitiesFeed.jsx:127-129 | with an empty or missing term every opportunity with a title is listed |
| OpportunitiesFeed.SearchIgnoresTermCase | frontend/src/components/OpportunitiesFeed.jsx:127 | terms that lowercase alike list the same opportunities |
| OpportunitiesFeed.Feed.constructor | frontend/src/components/OpportunitiesFeed.jsx:16-19 | nothing saved and no user id |
| OpportunitiesFeed.Feed.HandleSave | frontend/src/components/OpportunitiesFeed.jsx:87-123 | signed out, no user id or a thrown request leaves the list; otherwise a saved id is removed everywhere and an unsaved one appended |
| Lists.Toggle | frontend/src/components/OpportunitiesFeed.jsx:97-118 | a present value is removed everywhere, with the other values kept in order and number; an absent one is appended at the end |
| Lists.ToggleTwice | frontend/src/components/OpportunitiesFeed.jsx:108-118 | saving then unsaving an absent id restores the list |
| Lists.ToggleNoDuplicates | frontend/src/pages/Discover.jsx:62-64 | toggling keeps a duplicate-free list duplicate-free |
| Lists.RemoveAll | frontend/src/pages/CreateOpportunity.jsx:72 | every copy of the value is gone, the rest kept in order with their counts |
| OpportunityForm.AddMajor | frontend/src/pages/CreateOpportunity.jsx:64-69 | the trimmed input is appended to an array exactly when it is non-empty and not already there; a value without `includes` is left alone |
| OpportunityForm.RemoveMajor | frontend/src/pages/CreateOpportunity.jsx:71-73 | on an array, every entry equal to the major is dropped and the others are kept in order and number; other values are left alone |
| OpportunityForm.AddKeepsNoDuplicates | frontend/src/pages/CreateOpportunity.jsx:65-66 | adding keeps a duplicate-free majors list duplicate-free |
| OpportunityForm.AddThenRemove | frontend/src/pages/EditOpportunity.jsx:80-89 | removing a major just added restores the list |
| OpportunityForm.Payload | frontend/src/pages/CreateOpportunity.jsx:80-83 | the payload copies every field, sends a falsy or missing GPA requirement as null, and keeps a truthy one |
| OpportunityForm.PayloadIdempotent | frontend/src/pages/EditOpportunity.jsx:96-99 | building the payload twice changes nothing |
| OpportunityForm.BlankGpaSubmittedAsNull | frontend/src/pages/CreateOpportunity.jsx:18-26 | an untouched create form submits a null GPA requirement |
| OpportunityForm.LoadDeadline | frontend/src/pages/EditOpportunity.jsx:68 | a falsy deadline loads as ""; a string keeps the prefix before its first 'T'; any other truthy value throws |
| OpportunityForm.LoadForm | frontend/src/pages/EditOpportunity.jsx:20-71 | a loaded form has exactly the blank edit form's fields; each plain field is the stored value when truthy and "" otherwise; majors default to []; the load throws for null data or a non-string truthy deadline |
| OpportunityForm.ZeroGpaSubmittedAsNull | frontend/src/pages/EditOpportunity.jsx:64 | a stored GPA of 0 loads as "" and is submitted as null |
| OpportunityForm.PickOrganization | frontend/src/pages/CreateOpportunity.jsx:52-56 | the first element of a non-empty array response becomes the organization; an empty or non-list response keeps the current one |
| OpportunityForm.OpportunityEditor.ForCreate | frontend/src/pages/CreateOpportunity.jsx:14-29 | the blank create form, an empty input, no organization |
| OpportunityForm.OpportunityEditor.ForEdit | frontend/src/pages/EditOpportunity.jsx:16-32 | the blank edit form, an empty input, no organization |
| OpportunityForm.OpportunityEditor.HandleAddMajor | frontend/src/pages/CreateOpportunity.jsx:64-69 | an accepted add changes only the majors and clears the input; a refused one changes nothing |
| OpportunityForm.OpportunityEditor.HandleRemoveMajor | frontend/src/pages/CreateOpportunity.jsx:71-73 | only the majors change, as `RemoveMajor` says |
| OpportunityForm.OpportunityEditor.LoadOpportunity | frontend/src/pages/EditOpportunity.jsx:61-72 | the form becomes the normalised opportunity, or stays when loading throws |
| OpportunityForm.OpportunityEditor.HandleBannerUploaded | frontend/src/pages/EditOpportunity.jsx:149-151 | the form becomes the form of the render in which the upload started, with only banner_url replaced, so edits made during the upload are lost |
| OpportunityForm.OpportunityEditor.FetchOrgData | frontend/src/pages/CreateOpportunity.jsx:45-62 | only the organization changes, as `PickOrganization` says |
| Discover.WithSelected | frontend/src/pages/Discover.jsx:60-61 | only the named category is replaced |
| Discover.ToggleFilter | frontend/src/pages/Discover.jsx:59-66 | a selected value is removed everywhere with every other selected value kept as often as before, an unselected one appended; no other category or field changes |
| Discover.ToggleFilterTwice | frontend/src/pages/Discover.jsx:62-64 | toggling an unselected value twice restores the filters |
| Discover.ToggleFilterNoDuplicates | frontend/src/pages/Discover.jsx:62-64 | toggling keeps a category's selection duplicate-free |
| Discover.SetGpa | frontend/src/pages/Discover.jsx:220 | the GPA control replaces only the GPA filter |
| Discover.SetLocation | frontend/src/pages/Discover.jsx:286 | the location control replaces only the location filter |
| Discover.SetCompensation | frontend/src/pages/Discover.jsx:315 | the compensation control replaces only the compensation filter |
| Discover.SearchParam | frontend/src/pages/Discover.jsx:49-55 | the search parameter is set exactly when the query has a non-space character, to the untrimmed query |
| Discover.DiscoverPage.constructor | frontend/src/pages/Discover.jsx:9-25 | the initial filters; the query is the URL's search parameter or "" |
| Discover.DiscoverPage.HandleFilterChange | frontend/src/pages/Discover.jsx:59-66 | the filters become `ToggleFilter` of the old ones; the query is untouched |
| Discover.DiscoverPage.ClearAllFilters | frontend/src/pages/Discover.jsx:68-78 | the filters become exactly the initial filters |
| Discover.DiscoverPage.HandleSearch | frontend/src/pages/Discover.jsx:49-57 | the URL parameter becomes `SearchParam` of the query; nothing else changes |
| Listings.ActiveOnly | frontend/src/pages/OrgDashboard.jsx:30 | exactly the active listings, in their order, each as often as it occurs |
| Listings.CloseListing | frontend/src/pages/AdminDashboard.jsx:135-139 | same length; listings with that id become closed, every other listing is unchanged |
| Listings.ClosedIsNotActive | frontend/src/pages/AdminDashboard.jsx:123 | after closing, no listing with that id offers a close button |
| Listings.CloseIdempotent | frontend/src/pages/AdminDashboard.jsx:135-139 | closing twice is closing once |
| Listings.WithoutListing | frontend/src/pages/OrgDashboard.jsx:147 | the listings with that id are dropped, the rest kept in order and in number |
| AdminDashboard.AdminView | frontend/src/pages/AdminDashboard.jsx:11-36 | the dashboard shows exactly for a signed-in user whose role claim is "admin"; the login prompt exactly when signed out |
| AdminDashboard.UnverifiedAccounts | frontend/src/pages/AdminDashboard.jsx:61 | exactly the accounts not verified, in order, each as often as it occurs |
| AdminDashboard.MarkVerified | frontend/src/pages/AdminDashboard.jsx:81-85 | same length; accounts with that id become verified, the others are unchanged |
| AdminDashboard.VerifyLeavesList | frontend/src/pages/AdminDashboard.jsx:61-85 | after verifying, the unverified list is the previous one without that id |
| AdminDashboard.AdminPage.constructor | frontend/src/pages/AdminDashboard.jsx:8-9 | no accounts and no opportunities |
| AdminDashboard.AdminPage.Load | frontend/src/pages/AdminDashboard.jsx:13-33 | data is loaded only for a signed-in admin |
| AdminDashboard.AdminPage.Verify | frontend/src/pages/AdminDashboard.jsx:68-89 | an ok response verifies the account; otherwise nothing changes |
| AdminDashboard.AdminPage.Close | frontend/src/pages/AdminDashboard.jsx:126-140 | the listing is closed whatever the response; only a thrown request leaves the list |
| OrgDashboard.OrgView | frontend/src/pages/OrgDashboard.jsx:61-67 | signed out gives the login prompt; a user object whose role claim is not "org" is denied; no user object shows the dashboard |
| OrgDashboard.OrgPage.constructor | frontend/src/pages/OrgDashboard.jsx:7-14 | no opportunities and the blank form |
| OrgDashboard.OrgPage.Load | frontend/src/pages/OrgDashboard.jsx:18-38 | after a load the list is exactly the active listings of the response, in order |
| OrgDashboard.OrgPage.HandleCreate | frontend/src/pages/OrgDashboard.jsx:40-58 | the created row is appended at the end and every form field reset; a thrown request changes nothing |
| OrgDashboard.OrgPage.Close | frontend/src/pages/OrgDashboard.jsx:138-151 | the listing leaves the list, the rest in order; a thrown request changes nothing |
| OrgDashboard.CloseKeepsActive | frontend/src/pages/OrgDashboard.jsx:30-147 | a list of active listings stays active after a close, without the closed id |
| Students.WithoutEmptyStrings | backend/routes/students.js:58-63 | no key is added; no kept value is ""; every key whose value is not exactly "" (null, 0 and false included) is kept with its value |
| Students.WithoutEmptyStringsIdempotent | backend/routes/students.js:58-63 | dropping empty strings twice is dropping them once |
| Students.DropEmptyStrings | backend/routes/students.js:58-63 | the loop over the body's keys ends with exactly `WithoutEmptyStrings` of the body |
| Students.AnyFieldReachesUpdate | backend/routes/students.js:56-69 | fields are not whitelisted: any field not set to "" reaches the update with its value |
| Students.StudentId | backend/routes/students.js:8-29 | succeeds exactly when userinfo answers ok with an object whose sub has a row and the lookup succeeds, and then returns that row's id; a userinfo response that is not ok, a missing sub or row and a failed lookup are "Supabase student not found" |
| Students.PatchStudent | backend/routes/students.js:50-78 | the route fails with 500 "Failed to update student" exactly when the caller is not resolved or the update fails; otherwise the caller's row receives the body without its empty strings |
| Students.RoleIsWritable | backend/routes/students.js:56-69 | a student can overwrite their own role |
| OrgRoutes.SplitMajors | backend/routes/org.js:54 | major i is the i-th comma-separated piece of the string, trimmed, for the unique comma-free pieces that join back into it; one more major than there are commas, each without a comma and without white space at either end |
| OrgRoutes.FormatMajors | backend/routes/org.js:52-55 | a string is split and trimmed; any other value, a missing one included, passes through |
| OrgRoutes.EmptyMajorsString | backend/routes/org.js:54 | "" becomes [""] |
| OrgRoutes.SingleMajor | backend/routes/org.js:54 | a string without a comma becomes the single trimmed major |
| OrgRoutes.Put | backend/routes/org.js:59-66 | a defined value is set, an undefined one leaves the row; no other field changes |
| OrgRoutes.NewOpportunityRow | backend/routes/org.js:50-66 | the row has only the six inserted fields; org_id is the caller's id; apply_link is the body's link; majors are formatted; title, description and GPA requirement come from the body |
| OrgRoutes.OwnerNotFromBody | backend/routes/org.js:50-65 | an org_id in the body has no effect on the inserted row |
| OrgRoutes.OrgId | backend/routes/org.js:8-24 | succeeds exactly when the userinfo body is an object whose sub has a row and the lookup succeeds, and then returns that row's id; a missing sub or row and a failed lookup are "Supabase org not found" |
| OrgRoutes.OpportunityTable.constructor | backend/routes/org.js:56-58 | the table starts empty |
| OrgRoutes.OpportunityTable.Create | backend/routes/org.js:46-76 | 200 exactly when the caller resolves and the insert succeeds, adding exactly the shaped row; otherwise 500 and nothing is inserted |
| OrgRoutes.OpportunityTable.Delete | backend/routes/org.js:79-92 | no row is removed: the row with that id is marked closed, or 500 and nothing changes |
| OrgRoutes.SoftDeleted | backend/routes/org.js:82-85 | the same ids remain; that row's status is "closed"; every other row is unchanged |
| OrgRoutes.SoftDeleteIdempotent | backend/routes/org.js:82-85 | deleting twice is deleting once |

## Left out

- Concurrency: the sync handler's suspension while it awaits the in-flight sync of the same subject is not modelled. A request that finds the subject locked does its fresh lookup at once, and requests run one after another.
- Network and store calls are parameters of the operations: Auth0 userinfo, every select, insert and update, and the storage upload and public URL. Their latency, retries and partial failures are not modelled.
- The bodies of store errors that the routes echo back are not modelled; only whether a call fails is.
- JWT decoding (base64 and JSON.parse of the token's payload) is an abstract partial function from token to profile.
- `Date.now()` is a parameter (`now`, and `fetchedAt` for the write after the fetch). Numeric overflow of `now + ttl` is not modelled.
- The `fetch` call, `res.text()` and `res.json()` of `fetchWithCache` are not modelled; their outcome is the `response` parameter. The data a body yields, and what JSON.stringify produces for a structured key, are given values.
- Data cached as `undefined` is not distinguished from a miss, and a failed `res.json` is not modelled.
- The multipart parser itself (buffering, field parsing) and `URL.createObjectURL` are left out. `FormData`, the `localStorage` persistence and timers are also left out, as I/O plumbing.
- BannerUpload.Decide: a file refused by the multipart stage is answered with 500. Express's default error handler answers an error passed to `next`, and multer's errors carry no status. The route's own "Invalid file type" 400 mapping is never reached for them.
- backend/server.js does not mount the upload router. The model describes the router as written.
- `toLowerCase` maps ASCII letters only; the full Unicode case mapping is not modelled.
- `trim` follows the ECMAScript white-space set. Strings are sequences of code points; UTF-16 surrogate pairs are not modelled.
- Errors raised by the JavaScript engine (reading a property of null) carry "Cannot read properties of null" as their message; the engine's exact text is not modelled.
- A lookup with an undefined subject (`.eq("auth_id", undefined)`) is modelled as finding no row.
- OrgDashboard.OrgPage.HandleCreate: requires a response that is a non-empty array. The page does not check `res.ok`, so a failed create, whose body is an object `{ error }`, and an empty array both make it append `undefined` (`data[0]`) and reset the form; a listing value cannot represent `undefined`, so those responses are not modelled.
- OpportunityForm: the edit page's add and remove handlers close over the form of their render. The model applies them to the current form, which differs only when two updates race within one render.
- Discover's `fetchOpportunities` only sets an empty placeholder list, so it is not modelled.
- The GET routes of students.js and org.js are not modelled; they select rows and echo them. The same goes for the edit page's fetch of the organization record.
- Row ids are modelled as strings in the upload, student and organization routes, so the upload route's strict comparisons (`entity_id !== orgUser.id`, `opp.org_id !== orgUser.id`) compare values of one kind. The sync handler never compares an id with a request value; it only receives the id the store assigns, which it models as a counter (`nextId`) so that distinct rows provably get distinct ids. The column types of the store are not part of this model.
- JSX rendering, navigation, alerts and console logging are not modelled.
- The passthrough routes (opportunities, saved, savedOrgs, organizations, admin, reviews) are not modelled.
