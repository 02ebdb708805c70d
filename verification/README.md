# PECE Portfolio: the data layer, as a verified model

The PECE Portfolio site keeps projects, contact submissions and articles. This
project models the part of it that carries logic:

- the in-memory store (`MemStorage`): three collections and one shared id counter;
- the Express route handlers that sit in front of the store, reduced to the status and body they answer;
- the relational table definitions and the insert shapes derived from them;
- the contact form validator;
- the browser API client that turns HTTP statuses into values or errors;
- the two static project lists with their lookup and filter helpers.

Everything is immutable data and pure functions. The store is a value,
`Storage.Store`. Every store operation returns its result together with the
store it leaves behind (`Storage.Transition`). A clock reading (`new Date()`) is
a `Timestamp` parameter. A storage call that throws is a boolean `fault`
parameter of the route. A JavaScript property that may be missing is a
`Common.Field`, `null` is `Common.Nullable.Null`, and a function result that may
be `undefined` is a `Common.Option`.

Modules, one per file:

| file | module | what it models |
|---|---|---|
| common.dfy | Common | `Option`, `Field`, `Nullable`, `Result`, `Outcome` (return or throw), `Timestamp` |
| json.dfy | Json | JSON values; string arrays in and out of JSON |
| decimal.dfy | Decimal | decimal rendering of the id counter |
| seqs.dfy | Seqs | `find`, `findIndex`, `filter`, `splice(i, 1)` on sequences, and their laws |
| tables.dfy | Tables | the four tables, the insert-schema derivation, the `safeParse` validator |
| records.dfy | Records | typed records and insert shapes, decoding a validated body, encoding a record as a body |
| storage.dfy | Storage | `MemStorage` and its invariant |
| routes.dfy | Routes | the API route handlers |
| client.dfy | Client | the browser's API client |
| end_to_end.dfy | EndToEnd | client and routes composed, stated against the store |
| site_types.dfy | SiteTypes | the contact form validator and the static record shapes |
| static_projects.dfy | StaticProjects | the three-project static list and its helpers |
| projects_data.dfy | ProjectsData | the five-project static list and its case-insensitive helpers |

Two behaviours of the store worth noting:

- `getAllProjects` answers in insertion order (seeds first), not newest first.
- The store copies its input as it is. A project created without `status`
  therefore has no status (`Field.Absent`) in the store. The `"completed"`
  default exists only in the table definition (`Tables.ProjectStatusDefault`).

## Model

| member | source | states |
|---|---|---|
| Decimal.NatToString | server/storage.ts:78 | the counter is written as a non-empty string of decimal digits with no leading zero |
| Decimal.NatToStringInjective | server/storage.ts:78 | different counter values are written differently |
| Json.StringsRoundTrip | shared/schema.ts:18 | a string array written to JSON reads back unchanged |
| Json.StringsRoundTripBack | shared/schema.ts:24 | a JSON string array read and written again is the same JSON value |
| Seqs.FindIndex | server/storage.ts:101 | `findIndex`: -1 exactly when nothing matches, else the position of the first match |
| Seqs.Find | server/storage.ts:87 | `find`: absent exactly when nothing matches, else the first matching element |
| Seqs.Filter | client/src/data/projects.ts:65 | `filter`: never longer than its input, and everything kept satisfies the test |
| Seqs.FilterIsSubsequence | client/src/data/projects.ts:64-66 | a filter's result keeps the input's order and drops elements only |
| Seqs.FilterMembership | client/src/data/projects.ts:64-66 | an element is in the filtered list exactly when it is in the input and passes the test |
| Seqs.FilterCount | src/lib/projects-data.ts:92-94 | a filter keeps every copy of a passing element and no copy of a failing one |
| Seqs.FilterAll | src/lib/projects-data.ts:92-94 | a test every element passes keeps the whole list |
| Seqs.FilterNone | client/src/data/projects.ts:64-66 | a test no element passes keeps nothing |
| Seqs.FilterConcat | client/src/data/projects.ts:64-66 | filtering a concatenation is concatenating the filtered parts |
| Seqs.RemoveAt | server/storage.ts:112 | `splice(i, 1)`: one shorter; the elements before `i` are kept and the ones after shift down by one |
| Seqs.RemoveAtIsSubsequence | server/storage.ts:112 | removing one element keeps the others in order |
| Seqs.RemoveOnlyRejectedIsFilter | server/storage.ts:108-114 | removing the one element that fails a test equals filtering by that test |
| Seqs.UniqueRemoveAt | server/storage.ts:112 | removing an element from a duplicate-free list keeps it duplicate-free and the element is gone |
| Seqs.UniqueInsert | server/storage.ts:96 | inserting an element that is not yet present keeps a list duplicate-free |
| Tables.ColumnOf | shared/schema.ts:6-49 | the column found for a key carries that key; none is found exactly when no column has it |
| Tables.CreateInsertSchema | shared/schema.ts:51-71 | one rule per column, in column order, with the column's key and type; the key may be left out when the column may be NULL or has a default, and may be null when the column may be NULL |
| Tables.Partial | server/routes.ts:52 | `.partial()` makes every key optional and changes nothing else |
| Tables.InsertProjectShape | shared/schema.ts:56-59 | the project insert shape has no id and no createdAt; title, description, imageUrl, technologies and category are required; status may be left out; longDescription, projectUrl, githubUrl and gallery may be left out or null |
| Tables.InsertContactSubmissionShape | shared/schema.ts:61-65 | the contact insert shape has no id, createdAt or status; name, email and message are required; company and service may be left out or null |
| Tables.InsertArticleShape | shared/schema.ts:67-71 | the article insert shape has no id, createdAt or publishedAt; the other seven keys are required |
| Tables.InsertUserShape | shared/schema.ts:51-54 | the user insert shape is exactly a required username and a required password |
| Tables.InsertProjectRules | shared/schema.ts:56-59 | position by position: which project keys are optional, which nullable, which hold string arrays |
| Tables.InsertContactSubmissionRules | shared/schema.ts:61-65 | position by position: only company and service are optional and nullable; all keys are text |
| Tables.InsertArticleRules | shared/schema.ts:67-71 | position by position: no article key is optional or nullable; only tags holds a string array |
| Tables.InsertUserRules | shared/schema.ts:51-54 | both user keys are required non-null text |
| Tables.InsertProjectSchemaFacts | shared/schema.ts:56-59 | the project insert shape names ten distinct keys |
| Tables.InsertContactSubmissionSchemaFacts | shared/schema.ts:61-65 | the contact insert shape names five distinct keys |
| Tables.InsertArticleSchemaFacts | shared/schema.ts:67-71 | the article insert shape names seven distinct keys |
| Tables.InsertUserSchemaFacts | shared/schema.ts:51-54 | the user insert shape names two distinct keys |
| Tables.ProjectStatusDefault | shared/schema.ts:20 | the project status column is NOT NULL with default `"completed"` |
| Tables.ContactStatusDefault | shared/schema.ts:34 | the contact status column is NOT NULL with default `"new"` |
| Tables.TechnologiesColumn | shared/schema.ts:18 | technologies is a required string-array column |
| Tables.GalleryColumn | shared/schema.ts:24 | gallery is a string-array column that may be NULL |
| Tables.TagsColumn | shared/schema.ts:45 | tags is a required string-array column |
| Tables.UniqueUserName | shared/schema.ts:6-10 | username is the only unique column of the users table |
| Tables.ColumnOfFirst | shared/schema.ts:6-49 | a column lookup finds the first column carrying the key |
| Tables.Issues | server/routes.ts:34-40 | no issue is reported exactly when every rule holds; every key whose rule breaks is reported, and only such keys |
| Tables.SafeParse | server/routes.ts:34-40 | `safeParse` succeeds exactly when the body is an object meeting every rule; the result keeps only the schema's keys with their values; a non-object is refused as such, an object with the full list of offending keys; an accepted object meets every rule |
| Tables.SafeParseIgnoresUnknownKey | server/routes.ts:34 | adding a key the schema does not know never changes the parse |
| Tables.SafeParseExact | server/routes.ts:34 | a conforming object with only known keys parses to itself |
| Tables.Write | client/src/lib/database.ts:31 | `JSON.stringify` of a record: a key is written exactly when its value is not `undefined`, with that value, and no other key is written |
| Tables.ValuesFit | server/routes.ts:34-42 | the values of an object that passes validation meet their rules position by position |
| Tables.FitsPartial | server/routes.ts:52 | values that are absent or meet their rule fit the partial schema |
| Tables.WriteParses | server/routes.ts:34-42 | an object written from fitting values passes validation unchanged |
| Tables.ValuesOfWrite | server/routes.ts:42 | reading back a written object yields exactly the written values |
| Records.Merge | server/storage.ts:104 | `{...existing, ...updateData}` keeps the project's id and createdAt, and an empty partial leaves the project as it was |
| Records.MergeKeepsIdentity | server/storage.ts:104 | an update never changes a project's id or createdAt |
| Records.MergeFieldwise | server/storage.ts:104 | a present key overwrites, null included, and an absent key keeps the old value |
| Records.MergeEmpty | server/storage.ts:104 | an empty partial changes nothing |
| Records.MergeOnlyCategory | server/storage.ts:104 | a partial holding only the category changes only the category |
| Records.MergeIdempotent | server/storage.ts:104 | applying the same partial twice equals applying it once |
| Records.MergeCompose | server/storage.ts:104 | two successive updates equal one update with the later keys winning |
| Records.ParseInsertProject | server/routes.ts:34-42 | a body is accepted exactly when it is an object meeting the project insert rules; a refusal carries the validator's error; an accepted body yields the record holding exactly the values of the schema's keys in the body, unknown keys dropped |
| Records.ParseProjectPatch | server/routes.ts:52-60 | a body is accepted exactly when it is an object meeting the all-optional update rules; an accepted body yields the record holding exactly the values of the schema's keys in the body, unknown keys dropped |
| Records.ParseInsertContactSubmission | server/routes.ts:89-97 | a body is accepted exactly when it is an object meeting the contact insert rules; an accepted body yields the record holding exactly the values of the schema's keys in the body, unknown keys dropped |
| Records.ParseInsertArticle | server/routes.ts:141-149 | a body is accepted exactly when it is an object meeting the article insert rules; an accepted body yields the record holding exactly the values of the schema's keys in the body, unknown keys dropped |
| Records.ParseInsertUser | shared/schema.ts:51-54 | a body is accepted exactly when it is an object meeting the user insert rules; an accepted body yields the record holding exactly the values of the schema's keys in the body, unknown keys dropped |
| Records.ReadInsertProjectValues | server/routes.ts:34-42 | the project read from accepted values keeps each value: written again it gives exactly those values |
| Records.ReadProjectPatchValues | server/routes.ts:52-60 | the partial read from accepted values keeps each value, and each missing key stays missing |
| Records.ReadInsertContactSubmissionValues | server/routes.ts:89-97 | the submission read from accepted values keeps each value |
| Records.ReadInsertArticleValues | server/routes.ts:141-149 | the article read from accepted values keeps each value |
| Records.ReadInsertUserValues | shared/schema.ts:51-54 | the user read from accepted values keeps each value |
| Records.InsertProjectRoundTrip | shared/schema.ts:56-59 | any project insert value, encoded as a request body, validates and decodes to itself |
| Records.ProjectPatchRoundTrip | server/routes.ts:52 | any partial project, encoded, validates against the update shape and decodes to itself |
| Records.InsertContactSubmissionRoundTrip | shared/schema.ts:61-65 | any contact insert value round-trips through its body |
| Records.InsertArticleRoundTrip | shared/schema.ts:67-71 | any article insert value round-trips through its body |
| Records.InsertUserRoundTrip | shared/schema.ts:51-54 | any user insert value round-trips through its body |
| Records.InsertProjectValuesFit | shared/schema.ts:56-59 | the encoded values of a project insert meet the insert rules key by key |
| Records.ProjectPatchValuesFit | server/routes.ts:52 | the encoded values of a partial meet the update rules key by key |
| Records.InsertContactSubmissionValuesFit | shared/schema.ts:61-65 | the encoded values of a contact insert meet its rules |
| Records.InsertArticleValuesFit | shared/schema.ts:67-71 | the encoded values of an article insert meet its rules |
| Records.InsertUserValuesFit | shared/schema.ts:51-54 | the encoded values of a user insert meet its rules |
| Records.DecodeInsertProjectValues | server/routes.ts:42 | decoding the encoded values of a project insert gives it back |
| Records.DecodeProjectPatchValues | server/routes.ts:60 | decoding the encoded values of a partial gives it back |
| Records.DecodeInsertContactSubmissionValues | server/routes.ts:97 | decoding the encoded values of a contact insert gives it back |
| Records.DecodeInsertArticleValues | server/routes.ts:149 | decoding the encoded values of an article insert gives it back |
| Records.DecodeInsertUserValues | shared/schema.ts:51-54 | decoding the encoded values of a user insert gives it back |
| Records.ProjectPatchShape | server/routes.ts:52 | the update shape is the project insert shape with every key optional |
| Records.ProjectPatchSchemaFacts | server/routes.ts:52 | the update shape names ten distinct keys |
| Storage.MemIdInjective | server/storage.ts:77-79 | two counter values give the same `mem_` id only when they are equal |
| Storage.MemIdIsNotSeedId | server/storage.ts:30-79 | no generated id equals `project-1`, `project-2` or `article-1` |
| Storage.GenerateId | server/storage.ts:75-79 | the id is `mem_` followed by the current counter, and the counter goes up by one |
| Storage.InitialValid | server/storage.ts:30-75 | the seeded store (two projects, no contacts, one article, counter 1) has distinct ids and no id the counter will still produce |
| Storage.IndexOf | server/storage.ts:100-114 | the position of the first project with the id, or -1 exactly when none has it |
| Storage.GetAllProjects | server/storage.ts:82-84 | the projects in insertion order, seeds first |
| Storage.GetProject | server/storage.ts:86-88 | absent exactly when no project has the id; otherwise the first project that has it |
| Storage.CreateProject | server/storage.ts:90-98 | the new project carries every input key unchanged, the next `mem_` id and the clock reading; it is appended at the end; nothing else changes except the counter, which goes up by one |
| Storage.UpdateProject | server/storage.ts:100-106 | absent, with the store unchanged, exactly when no project has the id; otherwise the first such project is replaced in place by the merge and returned, and nothing else changes |
| Storage.DeleteProject | server/storage.ts:108-114 | true exactly when some project has the id; false leaves the store unchanged; true removes just the first such project |
| Storage.CreateContactSubmission | server/storage.ts:117-126 | the submission carries the input, the next id, the clock reading and status `"new"`; it is appended and nothing else changes |
| Storage.GetAllContactSubmissions | server/storage.ts:128-130 | the contact submissions in insertion order |
| Storage.GetAllArticles | server/storage.ts:133-135 | the articles in insertion order, seed first |
| Storage.GetArticle | server/storage.ts:137-139 | absent exactly when no article has the id; otherwise the first article that has it |
| Storage.CreateArticle | server/storage.ts:141-150 | the article carries the input, the next id and the two clock readings as publishedAt and createdAt; it is appended and nothing else changes |
| Storage.ValidAfterInsert | server/storage.ts:77-79 | adding the id the counter names, and advancing the counter, keeps every id distinct |
| Storage.CreateProjectKeepsValid | server/storage.ts:90-98 | creating a project keeps all ids distinct and fresh |
| Storage.CreateContactSubmissionKeepsValid | server/storage.ts:117-126 | creating a contact submission keeps all ids distinct and fresh |
| Storage.CreateArticleKeepsValid | server/storage.ts:141-150 | creating an article keeps all ids distinct and fresh |
| Storage.UpdateProjectKeepsIds | server/storage.ts:100-106 | an update changes no id anywhere in the store and does not move the counter |
| Storage.UpdateProjectKeepsValid | server/storage.ts:100-106 | an update keeps all ids distinct and fresh |
| Storage.DeleteProjectIds | server/storage.ts:108-114 | a delete removes exactly the deleted project's id from the store's ids |
| Storage.DeleteProjectKeepsValid | server/storage.ts:108-114 | a delete keeps all ids distinct and fresh |
| Storage.ApplyKeepsValid | server/storage.ts:10-26 | every store operation keeps ids distinct and fresh and never lowers the counter |
| Storage.RunKeepsValid | server/storage.ts:10-26 | any sequence of store operations keeps ids distinct and fresh and never lowers the counter |
| Storage.ReachableValid | server/storage.ts:29-151 | every store reachable from the seeded one has distinct ids |
| Storage.LaterIdDiffers | server/storage.ts:75-79 | an id generated after any further operations differs from a project's id generated earlier |
| Storage.ProjectIdsUnique | server/storage.ts:86-88 | in a reachable store no two projects share an id |
| Storage.GetAfterCreate | server/storage.ts:86-98 | a created project is found by its id |
| Storage.GetAfterUpdate | server/storage.ts:86-106 | after a successful update, lookup by the id returns the updated project |
| Storage.GetAfterDelete | server/storage.ts:86-114 | after a delete, no project has the id |
| Storage.DeleteTwice | server/storage.ts:108-114 | a second delete of the same id answers false and changes nothing |
| Storage.DeleteIsFilter | server/storage.ts:108-114 | a delete keeps exactly the projects with another id, in their order |
| Routes.ListProjects | server/routes.ts:9-17 | 200 with the store's projects, or 500 `Failed to fetch projects` exactly when storage throws; the store is untouched |
| Routes.GetProjectRoute | server/routes.ts:19-30 | 500 exactly when storage throws; otherwise 404 `Project not found` exactly when storage finds nothing, and 200 with the project found |
| Routes.CreateProjectRoute | server/routes.ts:32-48 | 400 `Validation failed` with the validator's error exactly when the body is refused, before storage; 500 exactly when the body is valid and storage throws; otherwise 201 with the created project and the store after creation |
| Routes.UpdateProjectRoute | server/routes.ts:50-70 | 400 exactly when the partial is refused, whatever the id; 500 when valid and storage throws; 404 exactly when valid and no project has the id; otherwise 200 with the merged project |
| Routes.DeleteProjectRoute | server/routes.ts:72-84 | 500 exactly when storage throws; 204 with no body exactly when storage answers true; otherwise 404 with the store unchanged |
| Routes.CreateContactRoute | server/routes.ts:87-103 | 400 exactly when the body is refused; 500 exactly when valid and storage throws; otherwise 201 with the created submission |
| Routes.ListContactsRoute | server/routes.ts:105-113 | 200 with the store's submissions, or 500 exactly when storage throws |
| Routes.ListArticlesRoute | server/routes.ts:116-124 | 200 with the store's articles, or 500 exactly when storage throws |
| Routes.GetArticleRoute | server/routes.ts:126-137 | 500 exactly when storage throws; otherwise 404 `Article not found` exactly when storage finds nothing, and 200 with the article found |
| Routes.CreateArticleRoute | server/routes.ts:139-155 | 400 exactly when the body is refused; 500 exactly when valid and storage throws; otherwise 201 with the created article |
| Routes.ValidationBeforeStorage | server/routes.ts:52-58 | a refused update body gets the same answer whatever the store holds and whether storage would throw, and the store is untouched |
| Routes.DeleteRouteTwice | server/routes.ts:72-84 | deleting an existing project twice answers 204, then 404 |
| Routes.CreateThenGet | server/routes.ts:19-48 | a project created through the API is then fetched through the API with 200 |
| Client.ReadBody | client/src/lib/database.ts:11 | `response.json()` yields the payload exactly when there is one |
| Client.Fetch | client/src/lib/database.ts:6-12 | a non-2xx status throws the call's message; a value is returned exactly for a 2xx with a payload, and it is that payload |
| Client.FetchOptional | client/src/lib/database.ts:14-23 | 404 and only 404 gives `undefined`; any other non-2xx throws the call's message; a 2xx payload is returned |
| Client.GetAllProjects | client/src/lib/database.ts:6-12 | non-2xx throws `Failed to fetch projects`; a value is returned exactly for a 2xx answer with a payload, and it is that payload |
| Client.GetProject | client/src/lib/database.ts:14-23 | 404 exactly gives `undefined`; other non-2xx throws `Failed to fetch project`; a found value is returned exactly for a 2xx answer with a payload, and it is that payload |
| Client.CreateProject | client/src/lib/database.ts:25-37 | non-2xx throws `Failed to create project`; a value is returned exactly for a 2xx answer with a payload, and it is that payload |
| Client.UpdateProject | client/src/lib/database.ts:39-54 | 404 exactly gives `undefined`; other non-2xx throws `Failed to update project`; a found value is returned exactly for a 2xx answer with a payload, and it is that payload |
| Client.DeleteProject | client/src/lib/database.ts:56-64 | true exactly for a 2xx status; 404 and every other failure, 500 included, give false and never throw |
| Client.CreateContactSubmission | client/src/lib/database.ts:67-79 | non-2xx throws `Failed to submit contact form`; a value is returned exactly for a 2xx answer with a payload, and it is that payload |
| Client.GetAllContactSubmissions | client/src/lib/database.ts:81-87 | non-2xx throws `Failed to fetch contact submissions`; a value is returned exactly for a 2xx answer with a payload, and it is that payload |
| Client.GetAllArticles | client/src/lib/database.ts:90-96 | non-2xx throws `Failed to fetch articles`; a value is returned exactly for a 2xx answer with a payload, and it is that payload |
| Client.GetArticle | client/src/lib/database.ts:98-107 | 404 exactly gives `undefined`; other non-2xx throws `Failed to fetch article`; a found value is returned exactly for a 2xx answer with a payload, and it is that payload |
| Client.CreateArticle | client/src/lib/database.ts:109-121 | non-2xx throws `Failed to create article`; a value is returned exactly for a 2xx answer with a payload, and it is that payload |
| EndToEnd.GetProjectAgrees | client/src/lib/database.ts:14-23 | the client's answer for one project is exactly the store's: `undefined` exactly when the store finds none |
| EndToEnd.GetProjectFault | server/routes.ts:26-29 | when storage throws, the client throws `Failed to fetch project` rather than answering `undefined` |
| EndToEnd.GetArticleAgrees | client/src/lib/database.ts:98-107 | the client's answer for one article is exactly the store's |
| EndToEnd.ListsAgree | client/src/lib/database.ts:6-96 | the client's lists are exactly the store's lists |
| EndToEnd.DeleteAgrees | client/src/lib/database.ts:56-64 | the client's delete answers true exactly when storage was reached and answered true |
| EndToEnd.CreateProjectRoundTrip | client/src/lib/database.ts:25-37 | a project sent by the client always validates; the client gets back exactly the project the store created, whose input keys are the ones sent |
| EndToEnd.UpdateProjectRoundTrip | client/src/lib/database.ts:39-54 | a partial sent by the client always validates, and the client's answer is exactly the store's update answer |
| EndToEnd.CreateContactSubmissionRoundTrip | client/src/lib/database.ts:67-79 | a submission sent by the client validates, and the client gets back exactly the stored submission |
| EndToEnd.CreateArticleRoundTrip | client/src/lib/database.ts:109-121 | an article sent by the client validates, and the client gets back exactly the stored article |
| EndToEnd.InvalidUpdateThrows | client/src/lib/database.ts:47-52 | a refused update body reaches the client as a thrown `Failed to update project`, never as `undefined` |
| SiteTypes.ValidateContact | src/types/schema.ts:4-10 | accepted exactly when the name is non-empty, the email passes the email check and the message is non-empty; an accepted draft is returned as it is; a refusal lists each failing check with its message and nothing else |
| SiteTypes.OptionalKeysIrrelevant | src/types/schema.ts:7-8 | company and service, present or missing, never decide acceptance |
| SiteTypes.EmptyNameRejected | src/types/schema.ts:5 | an empty name is refused with `Name is required` |
| SiteTypes.EmptyMessageRejected | src/types/schema.ts:9 | an empty message is refused with `Message is required` |
| SiteTypes.EmailExamples | src/types/schema.ts:5-9 | with the check pinned on `a@b.com` and `not-an-email`: a one-space name passes (nothing is trimmed), and a bad address is refused with the email message alone |
| StaticProjects.FindById | client/src/data/projects.ts:56-58 | `undefined` exactly when no project has the id; otherwise the first project with that id |
| StaticProjects.FilterByCategory | client/src/data/projects.ts:64-66 | exactly the projects whose category equals the argument, case-sensitively, in order, each kept as often as it occurs |
| StaticProjects.GetProjectById | client/src/data/projects.ts:56-58 | `undefined` exactly when no static project has the id; otherwise a static project with that id |
| StaticProjects.GetAllProjects | client/src/data/projects.ts:60-62 | the three static projects, ids `1`, `2`, `3`, in that order |
| StaticProjects.GetProjectsByCategory | client/src/data/projects.ts:64-66 | exactly the static projects whose category equals the argument, as an order-keeping subsequence of the whole list |
| StaticProjects.CatalogKeys | client/src/data/projects.ts:4-54 | the list's ids and categories, position by position |
| StaticProjects.FindByIdDistinct | client/src/data/projects.ts:56-58 | when ids are distinct, each id finds its own record |
| StaticProjects.LookupEach | client/src/data/projects.ts:4-58 | each static id finds exactly its own record |
| StaticProjects.UnknownCategory | client/src/data/projects.ts:64-66 | a category no project has yields an empty list |
| StaticProjects.PowerSystemsCategory | client/src/data/projects.ts:4-66 | `Power Systems` yields exactly project 2, and `power systems` yields nothing |
| ProjectsData.Lower | src/lib/projects-data.ts:93 | upper-case ASCII letters map to lower case; every other character is unchanged |
| ProjectsData.LowerString | src/lib/projects-data.ts:93 | lower-casing keeps the length and lowers each character |
| ProjectsData.LowerStringIdempotent | src/lib/projects-data.ts:93 | lower-casing twice is lower-casing once |
| ProjectsData.Includes | src/lib/projects-data.ts:93 | `includes` is true exactly when the needle occurs at some position of the string |
| ProjectsData.IncludesEmpty | src/lib/projects-data.ts:93 | every string includes the empty string |
| ProjectsData.FindById | src/lib/projects-data.ts:75-76 | `null` exactly when no project has the id; otherwise the first project with that id |
| ProjectsData.FilterByCategory | src/lib/projects-data.ts:92-94 | exactly the projects whose lower-cased category contains the lower-cased query, in order, each kept as often as it occurs |
| ProjectsData.GetProjectById | src/lib/projects-data.ts:72-79 | `null` (not `undefined`) exactly when no listed project has the id |
| ProjectsData.GetAllProjects | src/lib/projects-data.ts:81-87 | the five listed projects, ids `1` to `5`, in order |
| ProjectsData.GetProjectsByCategory | src/lib/projects-data.ts:89-98 | exactly the listed projects whose lower-cased category contains the lower-cased query, as an order-keeping subsequence |
| ProjectsData.CatalogIds | src/lib/projects-data.ts:4-70 | the list's ids, position by position |
| ProjectsData.FindByIdDistinct | src/lib/projects-data.ts:75 | when ids are distinct, each id finds its own record |
| ProjectsData.LookupEach | src/lib/projects-data.ts:72-79 | each listed id finds exactly its own record |
| ProjectsData.UnknownIdIsNull | src/lib/projects-data.ts:76 | an id outside `1`..`5` is answered with `null` |
| ProjectsData.EmptyQueryMatchesAll | src/lib/projects-data.ts:92-94 | the empty query returns the whole list |
| ProjectsData.CaseInsensitive | src/lib/projects-data.ts:92-94 | two queries that differ only in ASCII letter case return the same list |
| ProjectsData.LoweredQuery | src/lib/projects-data.ts:93 | a query and its lower-cased form return the same list |

## Left out

- React components, the navigation bar, the seed script, server bootstrap, and the query-client configuration: presentation and tooling with no data logic.
- Promises, `async` and the 100 ms `setTimeout` delays: every operation is synchronous.
- `new Date()`: clock readings are `Timestamp` parameters. `createArticle` reads the clock twice, so it takes two. No date arithmetic is done.
- The dates of the static records are written as milliseconds since the epoch for midnight UTC of the given day.
- `console.error` logging in the route handlers.
- Express routing, request parsing and the `res.json` serialisation. A route's body is the typed record itself. The ISO-string rendering of `Date` fields on the wire is not modelled.
- Storage.GenerateId: the id counter is an unbounded natural. In the source it is a JavaScript number, which counts exactly only below 2^53. Past that bound `idCounter++` stops changing the value and ids repeat. So the distinct-id invariant (`Storage.Valid`, `Storage.ReachableValid`, `Storage.LaterIdDiffers`) holds in the source only for fewer than 2^53 generated ids.
- Decimal.NatToString: renders every natural as plain digits. A JavaScript template renders 10^21 and above in exponent form (`1e+21`), a range the counter cannot reach in practice.
- Routes: an exception is modelled only as coming from the storage call (the `fault` flag). The in-memory store never throws.
- Routes: the text `fromZodError(...).toString()` of a 400 body is replaced by the structured `Tables.ValidationError` it is computed from.
- Tables.Accepts: a `jsonb` column is checked against its declared element type (an array of strings). The runtime schema of `createInsertSchema` accepts any JSON value there. The model therefore refuses some bodies the running validator accepts, such as a number for `technologies`.
- Tables.Accepts: a timestamp column accepts no JSON value, since a parsed JSON body never holds a `Date`. All timestamp columns are omitted from the insert shapes anyway.
- There is no user storage and no user route. `insertUserSchema` is modelled as a shape only. Whether usernames are unique is left to the database's unique constraint.
- The relational backend itself: only its table definitions are modelled.
- SiteTypes.ValidateContact: whether a string is a valid email address is a predicate supplied by the caller. It is pinned only by `a@b.com` (valid) and `not-an-email` (invalid).
- SiteTypes.ValidateContact: the draft's fields are typed strings. zod's type-mismatch issues for non-string input are not modelled.
- ProjectsData.Lower: `toLowerCase` is modelled on the ASCII letters only. Other upper-case characters are left unchanged.
- Client.ReadBody: a 2xx answer without a JSON payload is modelled as a thrown parse error with a fixed message. No route answers that way on a call that reads the body. The client's HTTP transport (`fetch`) is not modelled; a network failure is out of scope.
- `client/src/lib/projects-data.ts` (a fetch wrapper collapsing every failure to `null` or `[]`) is not part of this model.
- The static `Article` shape of `src/types/schema.ts` is declared but no operation uses it.
