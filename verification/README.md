# Onboarding routes of the client-onboarding server

This is a model of the Express router that stores what a new client submits
in the onboarding wizard. Each PUT/POST handler is one or two SQL statements
against four tables:

- `client`: one row per client, holding business, location, demographic and
  contact columns, two attachment lists (`pictures`, `contract`) and
  `last_active`;
- `"user"`: the staff account's names;
- `client_service` and `client_product`: join tables linking a client to
  catalogue ids.

The model has two layers.

**Value layer.**
- `Schema` holds the rows and tables.
- `JoinTables` gives what the DELETE and INSERT statements of the join tables
  do to the ids linked to each client.
- `ClientUpdates` writes a single-row `UPDATE ... SET ... WHERE id = $k` as
  data: a map from column to right-hand side (`$k`, `NOW()`, or
  `column || $k`), or a statement text the parser rejects. `Exec` and
  `ExecUser` say what PostgreSQL does with such a statement and a parameter
  array.
- `OnboardingSql` holds each route's statement, as written and, where the
  text does not parse, corrected. It also holds the parameter array each
  route builds and a direct record update stating which columns the route is
  meant to write. Each statement that parses is proved to act exactly as
  that update; the two that do not parse are proved to fail for every input.
- `DriveLinks` has the two upload loops: storing files in Google Drive, and
  turning file ids into `https://drive.google.com/uc?id=<id>` links.

**Imperative layer.** `OnboardingRouter.Store` is a class whose fields are
the tables. It has one method per route, running the statements in the
handler's order. A statement can fail for reasons outside the model, such
as a lost connection or a violated constraint. Each such failure is a
boolean input. Failures caused by the statement's own text come from `Exec`.
The clock (`NOW()`) is a parameter. The Drive responses are an input
sequence.

A request body field the client leaves out reaches the database as NULL. The
model writes it as `Field.Null`, so the column is set to NULL rather than
kept. The service INSERT has no conflict clause, so the model treats
`client_service` as a bag of rows: submitted ids go in as given, duplicates
included, and the client's ids afterwards equal the submitted sequence
exactly. A unique-key violation, if the table has such a key, is an
`insertFails` failure. `client_product` is kept free of duplicate
pairs (`Store.Valid`), the unique key its `ON CONFLICT` clause names.

The model follows what the code does, including where that falls short of
what the routes are meant to guarantee:

- The service route's DELETE and INSERT are two independent statements with
  no transaction. A failed INSERT therefore leaves the client with no
  services, rather than rolling back to the services it had.
- Duplicate service ids are not removed before they are inserted.
- An empty product list fails, rather than clearing the client's products.
- Absent fields are set to NULL, rather than left as they were.
- No input is validated before the statements run.
- The product route's DELETE also stands when its INSERT fails, so the
  client is left with only the still-listed products.
- `/additionalinfo` replaces the `pictures` list with the body's list rather
  than appending to it (server/routes/onboarding.router.js:274), so
  submitting that step after `/upload/pictures` overwrites the Drive links
  the upload appended.

## Model

The statement constants in `OnboardingSql` (`LocationSql`,
`LocationSqlCorrected`, `DemographicsSql`, `AdditionalInfoSql`,
`ContactClientSql`, `ContactClientSqlCorrected`, `ContactUserSql`) encode
the SQL texts at server/routes/onboarding.router.js:157-171, 203-213,
270-278, 314-320 and 321-328. They have no rows of their own: the `Fails`
and `Writes` rows citing the same lines state what each one does.

| member | source | states |
|---|---|---|
| JoinTables.DeleteRows | server/routes/onboarding.router.js:98 | the client-scoped DELETE, used at line 98 with nothing spared and at line 233 with the submitted ids spared: the table only shrinks, and no row of the client with an unspared id is left |
| JoinTables.InsertRows | server/routes/onboarding.router.js:108-111 | the rows `INSERT ... SELECT $1, unnest($2)` adds: one row (client, id) per submitted id, at the same position |
| JoinTables.InsertIgnoring | server/routes/onboarding.router.js:238-242 | `ON CONFLICT DO NOTHING`: the old table is a prefix of the new one, every added row is the client's row for a submitted id, and every submitted id ends up linked to the client |
| JoinTables.ReplaceRows | server/routes/onboarding.router.js:98-115 | the service DELETE followed by the INSERT: no row of the client has an unsubmitted id, and every submitted id is linked |
| JoinTables.Reconcile | server/routes/onboarding.router.js:233-246 | the product DELETE followed by the conflict-skipping INSERT: no row of the client has an unsubmitted id, and every submitted id is linked |
| JoinTables.ItemsOfMembership | server/routes/onboarding.router.js:98 | a client's linked ids are exactly the ids of the rows carrying that client id |
| JoinTables.DeleteRowsContents | server/routes/onboarding.router.js:233 | a row survives `DELETE ... WHERE client_id = $1 AND product_id NOT IN (...)` iff it belongs to another client or its id is listed |
| JoinTables.DeleteRowsOthers | server/routes/onboarding.router.js:98 | deleting a client's rows leaves every other client's ids unchanged |
| JoinTables.DeleteRowsOwn | server/routes/onboarding.router.js:233 | after the product DELETE, the client keeps exactly those of its ids that were submitted |
| JoinTables.DeleteRowsNoop | server/routes/onboarding.router.js:233 | the DELETE changes nothing when every row of the client is listed |
| JoinTables.DeleteRowsNoDuplicates | server/routes/onboarding.router.js:233 | deleting rows cannot create a duplicate pair |
| JoinTables.DeleteRowsCleared | server/routes/onboarding.router.js:98-104 | after the service DELETE alone the client has no service rows; this is the state a failed INSERT leaves |
| JoinTables.InsertRowsItems | server/routes/onboarding.router.js:108-111 | `INSERT ... SELECT $1, unnest($2)` adds one row per submitted id, in order, duplicates included, all for that client |
| JoinTables.InsertIgnoringContents | server/routes/onboarding.router.js:238-242 | after the insert a row is present iff it was present before or it is the client's row for a submitted id |
| JoinTables.InsertIgnoringNoDuplicates | server/routes/onboarding.router.js:238-242 | the conflict-skipping insert never stores a pair twice |
| JoinTables.InsertIgnoringOthers | server/routes/onboarding.router.js:238-242 | the insert leaves every other client's ids unchanged |
| JoinTables.InsertIgnoringNoop | server/routes/onboarding.router.js:238-242 | the insert changes nothing when every submitted pair is already stored |
| JoinTables.ItemsOfConcat | server/routes/onboarding.router.js:108-111 | a client's ids in rows appended to a table come after its ids in the table |
| JoinTables.ReplaceRowsExact | server/routes/onboarding.router.js:98-115 | after both service statements the client's ids are exactly the submitted ids and every other client's ids are unchanged |
| JoinTables.ReconcileExact | server/routes/onboarding.router.js:233-246 | after both product statements an id is linked to the client iff it was submitted |
| JoinTables.ReconcileOthers | server/routes/onboarding.router.js:233-246 | the product statements leave every other client's ids unchanged |
| JoinTables.ReconcileKeeps | server/routes/onboarding.router.js:233-246 | a stored row that is still listed survives the DELETE and is kept in place by the INSERT |
| JoinTables.ReconcileNoDuplicates | server/routes/onboarding.router.js:238-242 | the product route keeps `client_product` free of duplicate pairs |
| JoinTables.ReconcileIdempotent | server/routes/onboarding.router.js:233-246 | submitting the same product list twice stores the same rows as submitting it once |
| JoinTables.ServiceScenario | server/routes/onboarding.router.js:98-115 | a client that chooses services [3, 7] and then [7, 9] ends with exactly [7, 9] |
| ClientUpdates.Exec | server/routes/onboarding.router.js:157-175 | an UPDATE succeeds iff its text parses, it is type-correct and its WHERE parameter is a key; it keeps the set of client ids and leaves every other client's row unchanged |
| ClientUpdates.ExecUser | server/routes/onboarding.router.js:321-332 | the same for the `"user"` UPDATE |
| OnboardingSql.LocationParams | server/routes/onboarding.router.js:143-154 | the location parameter array holds nine scalars as `$1`–`$9` and the client id as `$10`; which body field lands in which column is proved by `LocationCorrectedWrites` |
| OnboardingSql.DemographicsParams | server/routes/onboarding.router.js:195-202 | the demographics parameter array holds five scalars, the body's `age_group` as `$5`, and the client id as `$6` |
| OnboardingSql.AdditionalInfoParams | server/routes/onboarding.router.js:264-269 | the additional-info array holds scalars as `$1` and `$3`, the body's `pictures` list as the array `$2`, and the client id as `$4`; that `$1` is `dimensions` and `$3` is `wugs_visit` is proved by `AdditionalInfoWrites` |
| OnboardingSql.ContactClientParams | server/routes/onboarding.router.js:300-303 | the contact change's client array is the body's phone as `$1` and the client id as `$2` |
| OnboardingSql.ContactUserParams | server/routes/onboarding.router.js:304-309 | the user array holds three scalars as `$1`–`$3` and the body's `user_id` as `$4`; which name lands in which column is proved by `ContactUserWrites` |
| OnboardingSql.AttachmentParams | server/routes/onboarding.router.js:397 | the attachment array is the link list as the array `$1` and the client id as `$2` |
| OnboardingSql.AppendSql | server/routes/onboarding.router.js:392-396 | the attachment UPDATE assigns only its own list column, by concatenation onto the stored value, and does not stamp `last_active` |
| OnboardingSql.LocationCorrectedAccepted | server/routes/onboarding.router.js:143-170 | once its column name is corrected, the location UPDATE parses and every placeholder gets a value of its column's type |
| OnboardingSql.DemographicsAccepted | server/routes/onboarding.router.js:195-212 | the demographics UPDATE parses and every placeholder gets a value of its column's type |
| OnboardingSql.AdditionalInfoAccepted | server/routes/onboarding.router.js:264-277 | the additional-info UPDATE parses and its `pictures` placeholder gets an array |
| OnboardingSql.AppendAccepted | server/routes/onboarding.router.js:392-397 | both attachment UPDATEs parse and the appended placeholder gets an array |
| OnboardingSql.LocationFails | server/routes/onboarding.router.js:157-170 | the location UPDATE as written, with `hours_of operation`, fails for every body and client |
| OnboardingSql.LocationCorrectedWrites | server/routes/onboarding.router.js:143-170 | the corrected location UPDATE writes the nine submitted columns and `last_active` of the keyed client, and nothing else |
| OnboardingSql.LocationCorrectedRow | server/routes/onboarding.router.js:143-170 | the corrected SET list rewrites a row exactly as the location record update does |
| OnboardingSql.DemographicsWrites | server/routes/onboarding.router.js:195-212 | the demographics UPDATE writes its five columns and `last_active`, storing the body's `age_group` in `target_age_group`, and nothing else |
| OnboardingSql.DemographicsRow | server/routes/onboarding.router.js:195-212 | the demographics SET list rewrites a row exactly as the demographics record update does |
| OnboardingSql.AdditionalInfoWrites | server/routes/onboarding.router.js:264-277 | the additional-info UPDATE writes `dimensions`, `wugs_visit`, `last_active` and replaces `pictures` with the body's list, and nothing else |
| OnboardingSql.AdditionalInfoRow | server/routes/onboarding.router.js:264-277 | the additional-info SET list rewrites a row exactly as the additional-info record update does |
| OnboardingSql.ContactClientFails | server/routes/onboarding.router.js:314-320 | the contact change's client UPDATE as written, without the comma, fails for every input |
| OnboardingSql.ContactClientCorrectedWrites | server/routes/onboarding.router.js:300-320 | with the comma in place it writes the keyed client's `phone` and `last_active` only |
| OnboardingSql.ContactUserWrites | server/routes/onboarding.router.js:304-328 | the user UPDATE writes the three names of the user keyed by the body's `user_id`, and nothing else |
| OnboardingSql.AppendWrites | server/routes/onboarding.router.js:392-397 | the attachment UPDATE, which concatenates `$1` onto the stored `pictures` (or `contract`) array, appends the links to the keyed client's list and changes nothing else, `last_active` included |
| OnboardingSql.AppendRow | server/routes/onboarding.router.js:392-397 | the attachment SET list rewrites a row exactly as appending the links to that list does |
| DriveLinks.DriveUrl | server/routes/onboarding.router.js:387 | the link built from a file id is a Drive download link, and the id read back out of it is the id it was built from |
| DriveLinks.DriveUrlOfFileId | server/routes/onboarding.router.js:387 | a link that names an id is exactly the link built from that id |
| DriveLinks.DriveUrlInjective | server/routes/onboarding.router.js:387 | distinct files get distinct links |
| DriveLinks.DriveUrls | server/routes/onboarding.router.js:385-389 | one link per id, same length and order, each naming its id |
| DriveLinks.DriveUrlsInjective | server/routes/onboarding.router.js:385-389 | the id list can be recovered from its links |
| DriveLinks.DriveUrlsAppend | server/routes/onboarding.router.js:386-389 | pushing one more id pushes its link |
| DriveLinks.DriveUrlsConcat | server/routes/onboarding.router.js:385-389 | the links of two batches are the links of both batches run together |
| DriveLinks.StoredIds | server/routes/onboarding.router.js:360-379 | the stored ids are those of the responses before the first rejected request, in order: each id is its response's, and the list stops only at the end or at a rejected request; all of them iff no request was rejected |
| DriveLinks.StoredIdsAppend | server/routes/onboarding.router.js:362-378 | one more stored file adds its id at the end |
| DriveLinks.StoredIdsPrefix | server/routes/onboarding.router.js:362-378 | a rejected request ends the batch: nothing after it is stored |
| DriveLinks.UploadAll | server/routes/onboarding.router.js:360-379 | the upload loop succeeds iff Drive accepts every file, and returns the ids Drive stored |
| DriveLinks.FileUrls | server/routes/onboarding.router.js:385-389 | the link loop returns one link per stored file in upload order |
| OnboardingRouter.AppendedLinks | server/routes/onboarding.router.js:385-397 | after an upload the old attachment list is an unchanged prefix, followed by one link per stored file naming it, in upload order; every other column is unchanged |
| OnboardingRouter.AppendTwice | server/routes/onboarding.router.js:392-397 | two uploads in a row append both batches in order, and resubmitting a batch appends it again |
| OnboardingRouter.Store.constructor | server/routes/onboarding.router.js:228-246 | a store starts with the given tables, no duplicate product pairs, no open transaction and no checked-out connection |
| OnboardingRouter.Store.PutServiceChoice | server/routes/onboarding.router.js:87-127 | 200 and the submitted ids replace the client's services when both statements succeed; 500 with the client's services deleted when only the INSERT fails; 500 and no change when the DELETE fails |
| OnboardingRouter.Store.PostFoodPreferences | server/routes/onboarding.router.js:228-256 | an empty list answers 500 and changes nothing; otherwise the DELETE and the conflict-skipping INSERT run in order, 200 iff both succeed; no duplicate pair is ever stored |
| OnboardingRouter.Store.RunClientUpdate | server/routes/onboarding.router.js:174-185 | one UPDATE is applied iff PostgreSQL accepts it and nothing else makes it fail; otherwise the table is unchanged |
| OnboardingRouter.Store.PutClientLocationInfo | server/routes/onboarding.router.js:134-186 | as written, every request answers 500 and leaves `client` unchanged |
| OnboardingRouter.Store.PutClientLocationInfoCorrected | server/routes/onboarding.router.js:134-186 | with the column name corrected: 200 and the location columns and `last_active` written, or 500 and no change |
| OnboardingRouter.Store.PutDemographics | server/routes/onboarding.router.js:191-224 | 200 and the demographic columns and `last_active` written, or 500 and no change |
| OnboardingRouter.Store.PutAdditionalInfo | server/routes/onboarding.router.js:260-289 | 200 and `dimensions`, `pictures`, `wugs_visit`, `last_active` written, or 500 and no change |
| OnboardingRouter.Store.RunUserUpdate | server/routes/onboarding.router.js:332 | the user UPDATE is applied iff accepted and not failed, else `"user"` is unchanged |
| OnboardingRouter.Store.Rollback | server/routes/onboarding.router.js:336 | ROLLBACK restores the tables saved at BEGIN and closes the transaction |
| OnboardingRouter.Store.ContactTransaction | server/routes/onboarding.router.js:311-341 | both updates are committed and the reply is 200, or neither row changes and the reply is 500; the connection is released on every path and the join tables are untouched |
| OnboardingRouter.Store.PutChangeContact | server/routes/onboarding.router.js:295-342 | as written, every request rolls back, answers 500 and leaves every table unchanged |
| OnboardingRouter.Store.PutChangeContactCorrected | server/routes/onboarding.router.js:295-342 | with the comma in place, the client's phone and `last_active` and the user's names are written together with 200, or nothing changes and the reply is 500 |
| OnboardingRouter.Store.UploadAttachments | server/routes/onboarding.router.js:345-414 | files Drive stored stay in the folder; the links are appended to the client's list and the stored files are sent back iff the batch is non-empty, every file is stored and the UPDATE succeeds; otherwise 500 and the row is unchanged |
| OnboardingRouter.Store.PostUploadPictures | server/routes/onboarding.router.js:345-414 | the upload contract for the `pictures` list |
| OnboardingRouter.Store.PostUploadContract | server/routes/onboarding.router.js:417-487 | the upload contract for the `contract` list |

## Left out

- The single-client GET route (`server/routes/onboarding.router.js:30-82`) is left out. It only reads, through a multi-table join.
- Express routing, the `rejectUnauthenticated` middleware and the response objects are left out. A handler's answer is reduced to its status code or its list of stored files.
- The Google Drive client, its authentication, multer's disk storage and its `Date.now()` file names, and reading files from disk are left out. Each Drive request is reduced to a response: a file id, or a rejection.
- Logging and reading the Drive key from the environment are left out.
- `NOW()` is a parameter, not a clock.
- Concurrent requests are left out; the model is sequential. Two requests for one client in the code are last-write-wins.
- A failing `pool.connect()`, BEGIN, COMMIT, ROLLBACK or `release()` in the contact change is left out. The model assumes these succeed, and fails only the two UPDATEs.
- Store.PutServiceChoice: foreign-key violations for unknown service ids are not told apart from other INSERT failures. Both are the `insertFails` input.
- Store.PostFoodPreferences: the product list is spliced into the DELETE text with `join()`. Only the empty list, which does not parse, is modelled. Non-numeric entries and a missing `client_id` are left out.
- A path id that is not a number (`Number(...)` gives NaN) is left out. So are upload routes that pass the id as text. Ids are integers.
- A NULL attachment list is left out. `/additionalinfo` stores NULL in `pictures` when the body has no `pictures` (server/routes/onboarding.router.js:266, 274), and that list then reads back as NULL, not as an empty list. The model has no NULL list: an absent list is the empty sequence. Appending to it gives the same links in the model as in PostgreSQL, whose array concatenation ignores a NULL operand.
- A missing `user_id` in the contact body is left out. The body's user id is an integer.
- Store.UploadAttachments: the reply carries each stored file's id, not the whole metadata object Drive returns.
- The three React components (the additional-info page, the admin table, the status page) are left out. They are user-interface rendering and hold no state change of the database.

## Findings

| source | as written | input that shows it | evidently intended | confidence | as-written member | corrected member |
|---|---|---|---|---|---|---|
| server/routes/onboarding.router.js:167 | the SET list names `hours_of operation`, two identifiers, so the UPDATE does not parse | any body and any client id: the route always answers 500 and stores nothing | `hours_of_operation = $8`, so the nine location columns and `last_active` are written | high; not executed | OnboardingSql.LocationFails, OnboardingRouter.Store.PutClientLocationInfo | OnboardingSql.LocationCorrectedWrites, OnboardingRouter.Store.PutClientLocationInfoCorrected |
| server/routes/onboarding.router.js:317-318 | no comma between `phone = $1` and `last_active = NOW()`, so the client UPDATE does not parse | any body: BEGIN, the client UPDATE fails, ROLLBACK, 500 | `phone = $1, last_active = NOW()`, so phone, `last_active` and the user's names commit together | high; not executed | OnboardingSql.ContactClientFails, OnboardingRouter.Store.PutChangeContact | OnboardingSql.ContactClientCorrectedWrites, OnboardingRouter.Store.PutChangeContactCorrected |
