# Portfolio client: session handling, admin editors and public sections

This project models the browser client of a personal portfolio site, originally written in TypeScript and React. It covers three areas.

- **Session.** The token store is `localStorage`, modelled as a map from key to value. The shared HTTP client's two interceptors attach the bearer token and drop the access token on a 401. The session guard around the admin page checks the access token's expiry, silently refreshes it, and resolves to the page or a redirect. The login form stores both tokens, and the logout route removes them.
- **Admin page.** It fetches both collections once, falling back to bundled data, and renders loading, then error, then the active section. The experience panel runs the modal, save and delete state machine. The experience and project editors validate into an error map and edit trimmed, de-duplicated lists.
- **Public pages.** The project filter list is built as an insertion-ordered set of categories and the project list is filtered by category. Experience ids are renumbered. The timeline assigns position flags, and the cards truncate, count overflow and strip queries.

Each React component whose handlers update state becomes a Dafny `class` with its state fields as `var`s. Each handler is a method whose `ensures` states the whole new state. Where the state is worth reasoning about, that state is given as a pure function, and the properties are proved as lemmas about it.

An `async` handler is split at its `await`:
- a `Start…`/`Begin…`/`Submit` method sends the request and returns it as a `Call` value (verb, path, body);
- a `Finish…`/`Settle…` method takes the settled outcome (`Settled<T>`: `Fulfilled(value)` or `Rejected(HttpError)`) as a parameter.

The session guard's `refreshToken` and `auth` are not split: `Guard.ProtectedRoute.RefreshToken` and `Guard.ProtectedRoute.Auth` are single methods that take the settled refresh reply as a parameter and return the request they send, if any, as an `Option<Call>`, because nothing in the guard's state changes between sending the refresh request and its settling.

Every settlement first passes through `Api.InterceptResponse`, as in the program, so a 401 anywhere drops the access token.

Other outside inputs are parameters too:
- `jwtDecode` becomes `exp: Option<int>` (`None` when decoding throws);
- `Date.now()` becomes `nowMs: int`;
- the bundled seed data is a constructor argument.

Two facts about the code shape the model:
- **No refetch after a change.** The admin page fetches both collections once, on mount. It mounts the experience panel without a change callback, so nothing refetches after a create, update or delete. See the second finding below.
- **Logout removes two keys.** Logout removes exactly the access and refresh tokens and leaves every other stored key alone (`App.Logout`).

## Model

| member | source | states |
|---|---|---|
| JsStrings.TrimEmptyIffBlank | client/src/components/forms/ExperienceForm.tsx:40-42 | `!s.trim()` holds exactly when every character is ECMAScript white space or a line terminator |
| JsStrings.TrimsToEmpty | client/src/components/forms/ProjectForm.tsx:39-41 | the "trimmed value is empty" test the validators run answers exactly "the field is blank" |
| JsStrings.TrimIdempotent | client/src/components/forms/ExperienceForm.tsx:59 | trimming an already trimmed input changes nothing, so the stored entry is what a later `includes(trim(input))` compares against |
| JsStrings.BeforeFirst | client/src/components/Card.tsx:125 | `split('?')[0]` is the prefix of the address before the first `?`, contains no `?`, and is the whole string when there is none |
| JsStrings.Prefix | client/src/components/Card.tsx:149 | `substring(0, n)` is the first `min(n, length)` characters |
| TokenStore.Storage.GetItem | client/src/components/ProtectedRoute.tsx:16 | `getItem` yields a value exactly when the key is stored, and that value |
| Api.WithBearer | client/src/api.ts:12-15 | `Authorization` becomes `Bearer <token>` exactly when the stored token is present and non-empty; otherwise the headers are unchanged; no other header changes |
| Api.BearerRoundTrip | client/src/api.ts:12-15 | a server reading the header gets back exactly the stored token, and without a usable token the request keeps whatever credential it had |
| Api.InterceptRequest | client/src/api.ts:10-21 | the request interceptor mutates the config's headers in place to `WithBearer(old headers, stored token)` and returns the same config |
| Api.StorageAfter | client/src/api.ts:24-35 | a 401 rejection removes the access token and nothing else; any other outcome, including a failure with no response, leaves storage as it was |
| Api.InterceptResponse | client/src/api.ts:24-35 | the response interceptor returns the outcome unchanged (no retry) and leaves storage as `StorageAfter` says |
| Api.PathsIdentifyEntry | client/src/api.ts:59-97 | item, update and delete paths determine both the collection and the id: distinct entries never share a path |
| Api.UpdateIsNotDelete | client/src/api.ts:67-74 | no update path equals any delete path |
| Guard.NoTokensDenied | client/src/components/ProtectedRoute.tsx:36-45 | with neither token stored, `auth` resolves unauthorized with no request and storage untouched |
| Guard.MissingAccessRefreshesOnce | client/src/components/ProtectedRoute.tsx:38-42 | with no access token but a refresh token, exactly one refresh request is sent, carrying that token |
| Guard.UnexpiredTokenTrusted | client/src/components/ProtectedRoute.tsx:50-59 | a decodable token with `exp` not before now is trusted, including `exp` equal to now: authorized, no request, storage untouched |
| Guard.StaleTokenRefreshes | client/src/components/ProtectedRoute.tsx:50-64 | an expired token, or one that fails to decode, goes through `refreshToken` |
| Guard.RefreshSuccessStoresAccess | client/src/components/ProtectedRoute.tsx:21-25 | a successful refresh stores the new access token, keeps the refresh token and every other key, and authorizes |
| Guard.RefreshFailureClearsBoth | client/src/components/ProtectedRoute.tsx:26-31 | any refresh failure removes both tokens, nothing else, and resolves unauthorized |
| Guard.RefreshWithoutToken | client/src/components/ProtectedRoute.tsx:16-19 | `refreshToken` without a stored refresh token resolves unauthorized and changes no storage |
| Guard.AuthTokenDiscipline | client/src/components/ProtectedRoute.tsx:15-66 | in every outcome the guard changes no key but the two tokens, never writes the refresh token, is authorized only with an access token stored, and leaves no token after a failed refresh |
| Guard.ProtectedRoute.constructor | client/src/components/ProtectedRoute.tsx:9 | the guard mounts in the pending state |
| Guard.ProtectedRoute.Render | client/src/components/ProtectedRoute.tsx:68-83 | pending shows the loading view, authorized shows the children, unauthorized redirects to `/login`; each view iff its state |
| Guard.ProtectedRoute.RefreshToken | client/src/components/ProtectedRoute.tsx:15-33 | the new storage, authorization and request are those of `RefreshResolution`, with the reply passed through the response interceptor, and the state is no longer pending |
| Guard.ProtectedRoute.Auth | client/src/components/ProtectedRoute.tsx:35-66 | the new storage, authorization and request are those of `AuthResolution`, and `auth` always leaves the pending state |
| App.Resolve | client/src/App.tsx:20-31 | `/admin` gives the admin portal, only ever inside the guard; `/`, `/login` and `/logout` give their pages; every other path gives NotFound; each iff |
| App.LoggedOut | client/src/App.tsx:10-14 | after logout neither token is stored and every other key is as it was |
| App.LogoutIdempotent | client/src/App.tsx:10-14 | logging out twice is logging out once, and with no token stored logout changes nothing |
| App.Logout | client/src/App.tsx:10-14 | removes the access token, then the refresh token, and redirects to `/` |
| AuthForm.Name | client/src/components/Form.tsx:18 | the label is "Login" iff the form logs in, otherwise "Register" |
| AuthForm.LoginLandsOnNotFound | client/src/components/Form.tsx:29 | the path a successful login navigates to resolves to the not-found page (finding) |
| AuthForm.IntendedLoginReachesAdmin | client/src/components/Form.tsx:26-32 | with the corrected target a login reaches the guarded admin portal, and a registration still lands on the login page |
| AuthForm.SubmitStorageEffect | client/src/components/Form.tsx:25-34 | a successful login writes exactly the returned access and refresh tokens; a registration writes nothing; a failure writes no token and can only drop the access token on a 401; no other key changes |
| AuthForm.Form.constructor | client/src/components/Form.tsx:13-15 | empty credentials, not loading |
| AuthForm.Form.SetUsername | client/src/components/Form.tsx:98 | only the username changes |
| AuthForm.Form.SetPassword | client/src/components/Form.tsx:126 | only the password changes |
| AuthForm.Form.Submit | client/src/components/Form.tsx:20-25 | `loading` rises and the credentials are posted to the form's route |
| AuthForm.Form.Settle | client/src/components/Form.tsx:25-37 | storage becomes `StorageAfterSubmit`; any success navigates (a login to `/admin-portal`, as written, which no route matches, see Findings; a registration to `/login`) and a failure goes nowhere; `loading` is false after either outcome |
| TagList.RemoveAll | client/src/components/forms/ExperienceForm.tsx:68-73 | `filter(t => t !== x)` leaves no `x` and keeps every other entry with its multiplicity |
| TagList.RemoveAllConcat | client/src/components/forms/ProjectForm.tsx:67-72 | removal distributes over concatenation, so the surviving entries keep their order |
| TagList.RemoveAllAbsent | client/src/components/forms/ProjectForm.tsx:84-89 | removing an entry that is not listed leaves the list unchanged |
| TagList.RemoveAllKeepsNoDuplicates | client/src/components/forms/ProjectForm.tsx:67-72 | removal keeps a duplicate-free list duplicate-free |
| TagList.RemoveAllKeepsTrimmed | client/src/components/forms/ExperienceForm.tsx:85-90 | removal keeps every entry trimmed and non-empty |
| TagList.AddUniqueKeepsInvariant | client/src/components/forms/ExperienceForm.tsx:58-65 | the checked add keeps the list duplicate-free, trimmed and non-empty; it grows by one iff the trimmed input is non-empty and absent, and then the new last entry is that trimmed input |
| TagList.AppendFresh | client/src/components/forms/ProjectForm.tsx:58 | appending a value that is not yet listed keeps the list duplicate-free |
| TagList.AddUniqueIdempotent | client/src/components/forms/ProjectForm.tsx:74-82 | pressing add a second time changes neither the list nor the input |
| TagList.RemoveUndoesAddUnique | client/src/components/forms/ProjectForm.tsx:74-89 | removing what the checked add just appended restores the list |
| TagList.AddNonBlankKeepsTrimmed | client/src/components/forms/ExperienceForm.tsx:75-83 | the description add keeps entries trimmed and non-empty and appends the trimmed input iff it is non-empty; it has no duplicate check |
| ExperienceEditor.CollectErrors | client/src/components/forms/ExperienceForm.tsx:37-47 | the error map has one message per blank title, company or duration and per empty description or technology list; it is empty iff the entry passes; the image is never checked |
| ExperienceEditor.ErrorsExtensional | client/src/components/forms/ExperienceForm.tsx:46-47 | a map that agrees with the rules key by key is the expected error map, and it is empty iff every rule holds |
| ExperienceEditor.DefaultDataRejected | client/src/components/forms/ExperienceForm.tsx:17-47 | the empty form fails on exactly title, company, duration, description and technologies |
| ExperienceEditor.WithField | client/src/components/forms/ExperienceForm.tsx:50-56 | `{...formData, [name]: value}` sets the named field and no other field |
| ExperienceEditor.ExperienceForm.constructor | client/src/components/forms/ExperienceForm.tsx:26-29 | the initial entry if given, otherwise the empty form; empty inputs; no errors |
| ExperienceEditor.ExperienceForm.SyncInitialData | client/src/components/forms/ExperienceForm.tsx:31-35 | a given initial entry replaces the form data, and nothing else changes |
| ExperienceEditor.ExperienceForm.HandleChange | client/src/components/forms/ExperienceForm.tsx:50-56 | only the named field changes |
| ExperienceEditor.ExperienceForm.SetTechInput | client/src/components/forms/ExperienceForm.tsx:212 | only the technology input changes |
| ExperienceEditor.ExperienceForm.SetDescriptionInput | client/src/components/forms/ExperienceForm.tsx:172 | only the description input changes |
| ExperienceEditor.ExperienceForm.HandleAddTechnology | client/src/components/forms/ExperienceForm.tsx:58-65 | the technologies and their input become `AddUnique` of the old ones, and nothing else changes |
| ExperienceEditor.ExperienceForm.HandleRemoveTechnology | client/src/components/forms/ExperienceForm.tsx:68-73 | the technologies become `RemoveAll` of the old ones, and nothing else changes |
| ExperienceEditor.ExperienceForm.HandleAddDescription | client/src/components/forms/ExperienceForm.tsx:75-83 | the description points and their input become `AddNonBlank` of the old ones, and nothing else changes |
| ExperienceEditor.ExperienceForm.HandleRemoveDescription | client/src/components/forms/ExperienceForm.tsx:85-90 | the description points become `RemoveAll` of the old ones, and nothing else changes |
| ExperienceEditor.ExperienceForm.Validate | client/src/components/forms/ExperienceForm.tsx:37-48 | the stored errors are the expected error map, and the answer is true iff the entry passes |
| ExperienceEditor.ExperienceForm.HandleSubmit | client/src/components/forms/ExperienceForm.tsx:92-97 | the current form data is handed to `onSubmit` iff it passes validation |
| ProjectEditor.CollectErrors | client/src/components/forms/ProjectForm.tsx:36-47 | one message per blank title, description or image and per empty technology or category list; empty iff the project passes |
| ProjectEditor.ErrorsExtensional | client/src/components/forms/ProjectForm.tsx:45-46 | a map that agrees with the rules key by key is the expected error map, and it is empty iff every rule holds |
| ProjectEditor.DefaultDataRejected | client/src/components/forms/ProjectForm.tsx:17-47 | the empty form fails on all five checked fields |
| ProjectEditor.WithField | client/src/components/forms/ProjectForm.tsx:49-55 | `{...formData, [name]: value}` sets the named field and no other field |
| ProjectEditor.ProjectForm.constructor | client/src/components/forms/ProjectForm.tsx:25-28 | the initial project if given, otherwise the empty form; empty inputs; no errors |
| ProjectEditor.ProjectForm.SyncInitialData | client/src/components/forms/ProjectForm.tsx:30-34 | a given initial project replaces the form data, and nothing else changes |
| ProjectEditor.ProjectForm.HandleChange | client/src/components/forms/ProjectForm.tsx:49-55 | only the named field changes |
| ProjectEditor.ProjectForm.SetTechInput | client/src/components/forms/ProjectForm.tsx:156 | only the technology input changes |
| ProjectEditor.ProjectForm.SetCategoryInput | client/src/components/forms/ProjectForm.tsx:196 | only the category input changes |
| ProjectEditor.ProjectForm.HandleAddTechnology | client/src/components/forms/ProjectForm.tsx:57-65 | the technologies and their input become `AddUnique` of the old ones, and nothing else changes |
| ProjectEditor.ProjectForm.HandleRemoveTechnology | client/src/components/forms/ProjectForm.tsx:67-72 | the technologies become `RemoveAll` of the old ones, and nothing else changes |
| ProjectEditor.ProjectForm.HandleAddCategory | client/src/components/forms/ProjectForm.tsx:74-82 | the categories and their input become `AddUnique` of the old ones, and nothing else changes |
| ProjectEditor.ProjectForm.HandleRemoveCategory | client/src/components/forms/ProjectForm.tsx:84-89 | the categories become `RemoveAll` of the old ones, and nothing else changes |
| ProjectEditor.ProjectForm.Validate | client/src/components/forms/ProjectForm.tsx:36-47 | the stored errors are the expected error map, and the answer is true iff the project passes |
| ProjectEditor.ProjectForm.HandleSubmit | client/src/components/forms/ProjectForm.tsx:91-96 | the current form data is handed to `onSubmit` iff it passes validation |
| ExperienceAdmin.SaveCall | client/src/components/ExperienceSection.tsx:49-55 | a save is an update of the current entry's id when that id is truthy, otherwise a create; both send the form data |
| ExperienceAdmin.AfterSave | client/src/components/ExperienceSection.tsx:56-65 | after a save settles nothing is in flight, and the selection and the delete modal are unchanged |
| ExperienceAdmin.AfterDelete | client/src/components/ExperienceSection.tsx:75-84 | after a delete settles nothing is in flight, and the selection and the edit modal are unchanged |
| ExperienceAdmin.ModalTitle | client/src/components/ExperienceSection.tsx:149 | "Edit Experience" iff an entry is selected, otherwise "Add New Experience" |
| ExperienceAdmin.SaveTargetsEntry | client/src/components/ExperienceSection.tsx:49-55 | the request is a PUT to the entry's update path iff the selection has a truthy id, and otherwise a POST to the create path |
| ExperienceAdmin.SaveSuccessCloses | client/src/components/ExperienceSection.tsx:57-59 | with a change callback, a successful save closes the edit modal, leaves no error and notifies once |
| ExperienceAdmin.SaveFailureKeepsModal | client/src/components/ExperienceSection.tsx:60-62 | a failed save keeps the modal as it was, sets the save message and notifies nobody |
| ExperienceAdmin.SaveWithoutCallbackReportsFailure | client/src/pages/AdminPortal.tsx:111-114 | mounted without the change callback, a save the server accepted closes the modal but reports the save failure message (finding) |
| ExperienceAdmin.WithCallbackErrorIffRejected | client/src/components/ExperienceSection.tsx:44-85 | with a callback, save and delete each end with an error iff the request failed, and notify iff it succeeded |
| ExperienceAdmin.ExperienceSection.constructor | client/src/components/ExperienceSection.tsx:19-23 | both modals closed, nothing selected, nothing in flight, no error |
| ExperienceAdmin.ExperienceSection.HandleAddClick | client/src/components/ExperienceSection.tsx:26-29 | selection cleared and edit modal opened; nothing else changes |
| ExperienceAdmin.ExperienceSection.HandleEditClick | client/src/components/ExperienceSection.tsx:32-35 | the entry is selected and the edit modal opened; nothing else changes |
| ExperienceAdmin.ExperienceSection.HandleDeleteClick | client/src/components/ExperienceSection.tsx:38-41 | the entry is selected and the delete modal opened; nothing else changes |
| ExperienceAdmin.ExperienceSection.CloseModal | client/src/components/ExperienceSection.tsx:148 | only the edit modal closes |
| ExperienceAdmin.ExperienceSection.CloseDeleteModal | client/src/components/ExperienceSection.tsx:168 | only the delete modal closes |
| ExperienceAdmin.ExperienceSection.StartSubmit | client/src/components/ExperienceSection.tsx:44-55 | the error is cleared, the panel is in flight, and the request is `SaveCall` for the selection |
| ExperienceAdmin.ExperienceSection.FinishSubmit | client/src/components/ExperienceSection.tsx:56-65 | the panel and the notification are `AfterSave` of the old panel; the change count grows iff notified; storage passes the 401 rule |
| ExperienceAdmin.ExperienceSection.StartDelete | client/src/components/ExperienceSection.tsx:69-76 | without a selected id nothing happens and no request is sent; otherwise the error is cleared, the panel is in flight and the entry's delete request is sent |
| ExperienceAdmin.ExperienceSection.FinishDelete | client/src/components/ExperienceSection.tsx:75-84 | the panel and the notification are `AfterDelete` of the old panel; the change count grows iff notified; storage passes the 401 rule |
| Admin.SkillsCount | client/src/pages/AdminPortal.tsx:99 | the `reduce` sum is 0 for no categories and the list's length for one |
| Admin.SkillsCountConcat | client/src/pages/AdminPortal.tsx:99 | the sum adds up over any split of the categories |
| Admin.SkillsCountIsFlatLength | client/src/pages/AdminPortal.tsx:99 | the dashboard's skill count is the number of skills listed over all categories |
| Admin.Displayed | client/src/pages/AdminPortal.tsx:97-98 | the server's list unless it is empty, then the bundled list |
| Admin.RenderContent | client/src/pages/AdminPortal.tsx:77-136 | loading first, then the error banner; a section is shown iff neither applies; the experiences and projects sections show the server's list unless it is empty, else the bundled one; the skills section shows the bundled skills; the dashboard counts are the displayed lists' lengths and the number of skills; an unknown section shows nothing |
| Admin.FailedFetchShowsBanner | client/src/pages/AdminPortal.tsx:38-95 | after a failed fetch only the error banner shows, so the bundled fallback loaded into the lists is never displayed |
| Admin.SuccessfulFetchShowsSection | client/src/pages/AdminPortal.tsx:30-131 | after a successful fetch the dashboard shows, counting the server's lists, or the bundled ones when a server list is empty |
| Admin.AdminPortal.constructor | client/src/pages/AdminPortal.tsx:18-22 | dashboard, not loading, no server data, no error |
| Admin.AdminPortal.BeginFetch | client/src/pages/AdminPortal.tsx:26-33 | loading rises, both collections are requested, and nothing else changes |
| Admin.AdminPortal.SettleFetch | client/src/pages/AdminPortal.tsx:30-46 | both lists come from the server with no error if both replies succeed, otherwise both come from the bundled data with the error set; loading falls in every case; both replies pass the 401 rule |
| Admin.AdminPortal.HandleNavigation | client/src/pages/AdminPortal.tsx:61-63 | only the active section changes, and nothing is fetched |
| PublicProjects.Insert | client/src/components/sections/Projects.tsx:32 | `set.add` on an insertion-ordered set appends a new value and ignores a present one |
| PublicProjects.FirstIndex | client/src/components/sections/Projects.tsx:30-34 | the position of a value's first occurrence |
| PublicProjects.InsertAllConcat | client/src/components/sections/Projects.tsx:30-34 | adding `a + b` is adding `a`, then `b` |
| PublicProjects.InsertAllExtends | client/src/components/sections/Projects.tsx:30-34 | adding never reorders or drops what the set already holds |
| PublicProjects.InsertAllElements | client/src/components/sections/Projects.tsx:30-34 | after adding, the set holds exactly its old values and the added ones |
| PublicProjects.InsertAllNoDuplicates | client/src/components/sections/Projects.tsx:30-34 | adding never creates a duplicate |
| PublicProjects.FirstIndexAppend | client/src/components/sections/Projects.tsx:30-34 | appending does not move a value's first occurrence |
| PublicProjects.DedupCharacterised | client/src/components/sections/Projects.tsx:29-36 | `Array.from(new Set(xs))` holds every value of `xs` exactly once, in order of first occurrence |
| PublicProjects.FilterListShape | client/src/components/sections/Projects.tsx:29-36 | the filter list starts with "All" and has no duplicates |
| PublicProjects.FilterListContents | client/src/components/sections/Projects.tsx:29-36 | the filter list holds exactly "All", "Other" and every project category, in order of first occurrence |
| PublicProjects.OtherPlacement | client/src/components/sections/Projects.tsx:35 | "Other" is added last only when no project uses it; otherwise the list is the projects' own categories after "All", with "Other" at its first use |
| PublicProjects.ExtractCategories | client/src/components/sections/Projects.tsx:29-36 | the nested loops build exactly the filter list |
| PublicProjects.WithCategory | client/src/components/sections/Projects.tsx:67-69 | keeps exactly the projects whose categories include the filter |
| PublicProjects.WithCategoryConcat | client/src/components/sections/Projects.tsx:67-69 | the filter distributes over concatenation, so it keeps the projects' order |
| PublicProjects.FilteredProjects | client/src/components/sections/Projects.tsx:65-69 | "All" yields every project; another filter yields exactly the projects listing it |
| PublicProjects.FilterAllMatch | client/src/components/sections/Projects.tsx:65-69 | when every project lists the filter, filtering changes nothing |
| PublicProjects.Projects.constructor | client/src/components/sections/Projects.tsx:14-19 | no projects, only "All" as a category, "All" active, loading, no error, not on bundled data |
| PublicProjects.Projects.StartFetch | client/src/components/sections/Projects.tsx:22-25 | loading rises, the projects are requested, and nothing else changes |
| PublicProjects.Projects.SettleFetch | client/src/components/sections/Projects.tsx:25-58 | success takes the server's projects and clears the error; failure takes the bundled projects, marks bundled data and leaves the error untouched; categories become `FilterList` of the projects either way; loading falls |
| PublicProjects.Projects.OnValueChange | client/src/components/sections/Projects.tsx:115 | an empty value leaves the active filter alone, any other value becomes it, and nothing else changes |
| PublicProjects.Projects.Render | client/src/components/sections/Projects.tsx:65-101 | loading first; with no error, the filter list, the active filter and the filtered projects; with an error, the error view, which no handler can reach because the fetch failure falls back to the bundled projects |
| PublicExperience.FromServer | client/src/components/sections/Experience.tsx:20-26 | server entries keep their fields and order, and have a string id iff the server sent one |
| PublicExperience.NormalizedId | client/src/components/sections/Experience.tsx:25 | a string id becomes the 1-based position; a non-zero number is kept; 0, `null` and `undefined` fall back to the position; never 0 |
| PublicExperience.Normalize | client/src/components/sections/Experience.tsx:23-26 | same length and order, every other field kept, each id renumbered by `NormalizedId` |
| PublicExperience.StringIdsNumberedInOrder | client/src/components/sections/Experience.tsx:23-26 | with string ids only, the ids become exactly 1..n and are pairwise distinct |
| PublicExperience.ServerEntriesNumberedInOrder | client/src/components/sections/Experience.tsx:20-28 | every server entry, with a string id or none, ends up numbered 1..n in its order with its fields unchanged, so the ids are distinct |
| PublicExperience.NumericIdsCanCollide | client/src/components/sections/Experience.tsx:36-39 | numeric ids are not renumbered: any two entries carrying the same non-zero number both keep it, wherever they stand, so ids need not be distinct |
| PublicExperience.Experience.constructor | client/src/components/sections/Experience.tsx:11-14 | no entries, loading, no error, not on bundled data |
| PublicExperience.Experience.StartFetch | client/src/components/sections/Experience.tsx:19-20 | loading rises, the entries are requested, and nothing else changes |
| PublicExperience.Experience.SettleFetch | client/src/components/sections/Experience.tsx:20-45 | success takes the renumbered server entries and clears the error; failure takes the renumbered bundled entries, marks bundled data and never sets an error; loading falls |
| PublicExperience.Experience.Render | client/src/components/sections/Experience.tsx:51-94 | loading first; with no error, the timeline of the renumbered entries; with an error, the error view, which no handler can reach because the fetch failure falls back to the bundled entries |
| Timeline.Place | client/src/components/Timeline.tsx:18-20 | `isLeft` iff the index is even, `isFirst` iff it is 0, `isLast` iff it is length − 1 |
| Timeline.Layout | client/src/components/Timeline.tsx:14-21 | one item per entry, in order, each placed by its index |
| Timeline.OneFirstOneLast | client/src/components/Timeline.tsx:19-20 | a non-empty timeline has exactly one first item, at the top, and one last item, at the bottom; a single entry is both |
| Timeline.Alternates | client/src/components/Timeline.tsx:18 | the first item is on the left, and neighbouring items are on opposite sides |
| Timeline.LeftCountBySides | client/src/components/Timeline.tsx:18 | the number of left items depends only on the side flags |
| Timeline.LeftGetsHalfRoundedUp | client/src/components/Timeline.tsx:18 | `ceil(n / 2)` of the `n` items sit on the left |
| Cards.Chips | client/src/components/Card.tsx:164-217 | a missing or empty list renders no row; otherwise a "+n more" is shown iff the list is longer than the limit |
| Cards.ChipsAccountForAll | client/src/components/Card.tsx:173-184 | the chips shown are the first `min(n, limit)` values in order, and with the "+n more" count they account for every value |
| Cards.TagRow | client/src/components/Card.tsx:164-189 | at most 3 tags are shown |
| Cards.CategoryRow | client/src/components/Card.tsx:192-217 | at most 2 categories are shown |
| Cards.RenderDescription | client/src/components/Card.tsx:141-161 | no description, or an empty text, renders nothing; a text renders as is; a list renders at most one bullet |
| Cards.BulletShape | client/src/components/Card.tsx:147-149 | a list renders exactly one bullet: the first point's first 80 characters (all of it when shorter), always followed by "..." |
| Cards.ImageSource | client/src/components/Card.tsx:104-138 | no image without a truthy address; an experience uses the address; a project uses it without its query; other card kinds have none |
| Cards.NoQueryUnchanged | client/src/components/Card.tsx:125 | an address without `?` is used unchanged |
| Cards.StripQueryIdempotent | client/src/components/Card.tsx:125 | stripping the query twice is stripping it once |
| Cards.AddCardTitle | client/src/components/Card.tsx:80 | the given title when it is truthy, otherwise "Add New Item"; never empty |

## Left out

- Rendering: JSX markup, styling, animation variants and timings, and the presentational components that only lay out markup (dashboard, stat cards, sidebar, skills and project panels, loading indicator, timeline item, login page) are not modelled.
- Token key names: the constants file is not part of this model. `ACCESS_TOKEN` and `REFRESH_TOKEN` are two distinct keys, "access" and "refresh"; only their distinctness matters.
- Token decoding and the clock: `jwtDecode` is an input (`exp: Option<int>`, `None` when it throws) and so is `Date.now()` (`nowMs`). The floating-point comparison `exp < now / 1000` is stated as the integer comparison `exp * 1000 < nowMs`, which is equivalent for integer `exp`.
- HTTP transport: axios, the base URL, request headers other than `Authorization`, response bodies beyond the fields used, and the server are not modelled. Each request is a `Call` value and each reply a given `Settled` outcome.
- Concurrency: async interleaving, React's batching of state updates, effect scheduling and `Promise.all`. The admin page's two fetches settle together as one step, and the first rejection wins.
- Api.InterceptRequest: the refresh request itself also passes the request interceptor, but `Call` values carry no headers, so the header attached to that request is not modelled.
- Guard.AuthResolution: a token that decodes but carries no `exp` claim is not modelled. The program trusts such a token, because `undefined < now` is false. `exp: Option<int>` uses `None` only for "decoding threw", which goes to a refresh.
- Guard.ProtectedRoute.Auth: the `.catch(() => setIsAuthorized(false))` around `auth()` is not modelled, because every failing path inside `auth` is already caught by `refreshToken`.
- `console.*` and `alert` are left out; `navigate` and `<Navigate>` are recorded only as the target path.
- Route matching is exact string comparison over the four routes and the `*` catch-all; the router's trailing-slash and case handling are not modelled.
- Strings are sequences of code points rather than UTF-16 code units, so `substring(0, 80)` counts characters, not code units.
- PublicExperience.NormalizedId: ids that are booleans or non-integral numbers are not modelled. A raw id is a string, an integer, or absent.
- ExperienceData/ProjectData: the server's timestamps (`created_at`, `updated_at`) are not modelled. A project's `category` is always a list; the server's model requires the field. A missing `category` is not modelled: the public projects section guards it like an empty list, but the project editor's `category.length` and `category.includes(...)` would throw on it where an empty list gives an error or an append.
- Admin: the skills object is modelled as its list of value lists, in `Object.values` order.
- Admin.AdminPortal.BeginFetch: the two calls are sent in parallel; their order in the returned sequence carries no meaning.
- Fetch-time shape errors: a server reply whose data is not an array (which would make `forEach` throw and take the fallback path) is not modelled.
- `getById` for either collection is only built as a path (`Api.GetByIdCall`); nothing in the client calls it.
- The project admin panel (`ProjectSection`) is presentational only: it holds no state, and its Edit, Delete, New Project and add-card buttons have no click handlers, so it has no state machine to model. `ProjectEditor.ProjectForm` is modelled as a stand-alone editor; no component in the client mounts it.
- TagList.AddUnique and TagList.AddNonBlank carry no contract of their own. Their properties are the lemmas listed above.
- ExperienceAdmin: the change callback is an opaque flag (`callbackGiven`) with a completion counter (`changes`). What a parent would do on a change, such as a refetch, is not modelled, because the admin page as written passes no callback and never refetches.

## Findings

| source | as written | input that shows it | evidently intended | confidence | as-written member | corrected member |
|---|---|---|---|---|---|---|
| client/src/components/Form.tsx:29 | after a successful login the form navigates to `/admin-portal`, which is not a route, so the user lands on the not-found page | any successful login | navigate to `/admin`, the guarded admin route | not executed | AuthForm.LoginLandsOnNotFound | AuthForm.IntendedLoginReachesAdmin |
| client/src/pages/AdminPortal.tsx:111-114 | the experience panel is mounted without `onExperienceChange`. After a successful save or delete, calling the missing callback throws inside the `try`, so the panel reports "Failed to save experience. Please try again." (after a save) or "Failed to delete experience. Please try again." (after a delete) although the server accepted the change | a fulfilled save with `callbackGiven == false` | pass a change callback, so success closes the modal with no error and notifies once | not executed | ExperienceAdmin.SaveWithoutCallbackReportsFailure | ExperienceAdmin.SaveSuccessCloses |
