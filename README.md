# info-bridge-web: the project dashboard's client logic, modelled in Dafny

info-bridge-web is a React dashboard where a user registers a project and then reviews the
material linked to it. The material comes from sources such as GitHub, Jira and Slack.
Under the UI there is a small layer of sequential client logic, and this project models it
and proves what it promises:

- **Project creation** (`CreateProjectModal`, `Csv`). This covers:
  - the keyword normaliser `parseCSV`;
  - the material-type classifier `inferMaterialType`;
  - the editable list of link items;
  - the required-field check;
  - the filter of valid link items and the material payloads built from them;
  - the phases of `submit`: creation, the materials, the two ingestion triggers, then navigation.

  Every API call `submit` makes is recorded, in order, as an `ApiCall`.
- **The project API** (`ProjectsApi`): the endpoint paths and the response mapping of
  `listProjects`.
- **The data hooks** (`UseProjects`). Every read hook owns `(data, loading, error)`; the
  class `FetchState` models that triple once. One pure function per hook turns a settled
  request into new data or an error message. The mutation hooks share `MutationState`:
  they record an error and re-throw it, which the model returns as `Failure` with the same
  message.
- **The DTO normalisers** (`ProjectItemsDto`): `isValidMaterialType`, `parseProjectData` and
  `convertToStrictTypes`.
- **The recommendation panel** (`RecommendationContainer`). This covers:
  - the selection set;
  - the conversion of recommendations into list entries;
  - the loop that gathers the selected item ids;
  - "add selected", which toggles those items through the toggle hook and notifies the page.
- **The two checkbox lists** (`CheckboxList`). `resources-list.tsx` and
  `recommendation-list.tsx` contain the same code under different names, so one module
  models both.
- **The add-link form** (`AddLinkModal`) and **the project-list page** (`ProjectListPage`).

`Strings`, `Numbers` and `Seqs` hold the parts of the JavaScript runtime the model uses:
- `Strings`: `split`, `join`, `trim`, `includes` and `toLowerCase`;
- `Numbers`: `String(n)` and `parseInt`;
- `Seqs`: `map` and `filter`.

Network responses are never produced by the model; they come in as parameters. `HttpOutcome`
models how a `fetch` ends: `Ok(payload)`, `HttpErr(status)` or `NetErr(message)`. `Settled`
models how an awaited axios promise ends: fulfilled, or rejected with an optional message.

Some behaviour of the code, as written, that the model keeps:
- The required fields of the creation form are not trimmed, so a field holding only spaces
  passes the check.
- A keyword input holding only spaces sends `project_keyword: undefined` in the creation
  body, but `''` in the trigger bodies.
- The type `web`, which `inferMaterialType` returns by default, is not one of the six
  members of `MaterialType`.
- `createProject` posts to `/projects`, without the trailing slash that `createProjectApi`
  uses.
- `useResources` logs `data.results[3]` before filtering. With fewer than four results this
  throws, so the error path runs and neither the resources nor the pagination change.
- `useProjectSummaries` ignores the status of its summarize POST. Only a rejected POST
  stops the summaries GET.
- The add-link modal renders no element named `is_fixed` or `is_active`, so both flags stay
  `true` whatever the user edits.
- The fallback project's keywords are split and trimmed but not filtered; no empty piece
  stays, because the fallback text contains none.

## Model

| member | source | states |
|---|---|---|
| `Common.MessageOr` | src/components/create-project-modal/index.tsx:148 | `e?.message \|\| fallback`: a present, non-empty message wins; a missing or empty one gives the fallback |
| `Http.FailureMessage` | src/hooks/projects/use-projects.ts:70-72 | a response that is not ok gives `HTTP error! status: N`; a rejected request gives its own message |
| `Http.StatusMessageInjective` | src/hooks/projects/use-projects.ts:71 | different statuses give different messages, so the status can be read back from the error |
| `Http.AsResult` | src/hooks/projects/use-projects.ts:67-73 | a hook gets a value exactly when the response was ok, and the failure message otherwise |
| `Csv.ParseCsv` | src/components/create-project-modal/index.tsx:59-63 | every token is non-empty, trimmed at both ends and free of commas |
| `Csv.ParseCsvAppend` | src/components/create-project-modal/index.tsx:60-63 | tokens keep their left-to-right order: the tokens of `a,b` are those of `a` followed by those of `b` |
| `Csv.ParseCsvOfEmpty` | src/components/create-project-modal/index.tsx:59-63 | the empty input has no tokens |
| `Csv.ParseCsvOfJoin` | src/components/create-project-modal/index.tsx:59-63 | parsing the comma-join of clean tokens gives back exactly those tokens |
| `Csv.ParseCsvRoundTrip` | src/components/create-project-modal/index.tsx:101-104 | reparsing the comma-join of the output of `parseCSV` gives the same list |
| `Csv.ParseCsvOfBlank` | src/components/create-project-modal/index.tsx:102-104 | input made only of spaces has no tokens |
| `Csv.JoinOfCleanTokensEmpty` | src/components/create-project-modal/index.tsx:110 | the joined keyword string is empty exactly when there are no tokens |
| `ProjectsApi.ProjectIdInPath` | src/api/projects.api.ts:83 | the project id in `/projects/{id}<suffix>` can be read back, so different ids give different paths |
| `ProjectsApi.TriggerPathsDistinct` | src/api/projects.api.ts:72-104 | the by-code and by-keyword trigger paths never coincide, and each names exactly one project |
| `ProjectsApi.DetailAndCreatePaths` | src/api/projects.api.ts:106-116 | `getProject` names its project exactly, and `createProject` posts to `/projects`, the list path without its trailing slash |
| `ProjectsApi.KeywordTokens` | src/api/projects.api.ts:40-44 | a null keyword gives no tokens; every token produced is clean, as with `parseCSV` |
| `ProjectsApi.KeywordTokensRoundTrip` | src/api/projects.api.ts:41-44 | a stored comma-join of clean tokens reads back as those tokens |
| `ProjectsApi.ListProjects` | src/api/projects.api.ts:35-47 | one project per result, in order; none when `results` is missing; id, email, name, code and both timestamps copied; keywords split into clean tokens |
| `ProjectsApi.ListedKeywordsClean` | src/api/projects.api.ts:40-44 | every listed keyword is non-empty, trimmed and free of commas |
| `UseProjects.FetchState.constructor` | src/hooks/projects/use-projects.ts:59-61 | a hook starts with its initial data, not loading, and no error |
| `UseProjects.FetchState.Begin` | src/hooks/projects/use-projects.ts:65-66 | a fetch sets loading and clears the error before the request; the data is kept |
| `UseProjects.FetchState.Settle` | src/hooks/projects/use-projects.ts:89-94 | success replaces the data; failure records the message and keeps the data; loading ends false on both paths |
| `UseProjects.FetchState.Fetch` | src/hooks/projects/use-projects.ts:63-95 | a whole fetch: not loading afterwards; the new data and no error, or the old data and the message |
| `UseProjects.FetchState.FetchOnMount` | src/hooks/projects/use-projects.ts:97-101 | the mount effect changes nothing when `projectId` is 0, and fetches otherwise |
| `UseProjects.MapProjectItem` | src/hooks/projects/use-projects.ts:74-87 | `title` falls back to `body` only when the title is missing; every other field is copied one to one |
| `UseProjects.ProjectItemsResult` | src/hooks/projects/use-projects.ts:67-89 | on an ok response, one mapped item per element, in order; otherwise the failure message |
| `UseProjects.EmptyTitleIsKept` | src/hooks/projects/use-projects.ts:78 | `??` keeps an empty title rather than replacing it with the body |
| `UseProjects.SummariesRequests` | src/hooks/projects/use-projects.ts:120-135 | the summarize POST is issued first; the summaries GET follows unless the POST was rejected |
| `UseProjects.SummariesResult` | src/hooks/projects/use-projects.ts:116-146 | a rejected trigger POST stores its own message; otherwise success exactly when the summaries GET is ok, storing its payload, and the GET's failure message when it is not |
| `UseProjects.TriggerStatusIgnored` | src/hooks/projects/use-projects.ts:120-138 | when the POST was not rejected, the outcome is that of the GET alone, whatever status the POST returned |
| `UseProjects.FetchProjectSummaries` | src/hooks/projects/use-projects.ts:116-146 | issues exactly those requests in that order, and settles the hook with the combined result |
| `UseProjects.PagedResult` | src/hooks/projects/use-projects.ts:285-291 | an ok response stores its results and its pagination fields; otherwise the failure message |
| `UseProjects.ResourcesResult` | src/hooks/projects/use-projects.ts:223-237 | success exactly when the response is ok with at least four results; then the stored items are exactly the active and fixed results, in response order and with their repetitions (the filter of the results), and the pagination is copied |
| `UseProjects.FetchResourcesWithFewResults` | src/hooks/projects/use-projects.ts:224-242 | with fewer than four results, neither resources nor pagination change, and the error is recorded |
| `UseProjects.ResourcesKeepOrder` | src/hooks/projects/use-projects.ts:229-231 | the active-and-fixed filter keeps the response order |
| `UseProjects.RecommendationResult` | src/hooks/projects/use-projects.ts:334-335 | an ok response stores `data.body`; otherwise the failure message |
| `UseProjects.BatchResult` | src/hooks/projects/use-projects.ts:461-480 | succeeds exactly when every toggle does, with every response in input order; otherwise reports the message of a failing toggle |
| `UseProjects.BatchFailsWithMemberMessage` | src/hooks/projects/use-projects.ts:471-478 | the reported failure is that of the first failing toggle in list order |
| `UseProjects.MutationState.constructor` | src/hooks/projects/use-projects.ts:415-416 | a mutation hook starts not loading with no error |
| `UseProjects.MutationState.Run` | src/hooks/projects/use-projects.ts:422-448 | returns the response, or records the message and throws it again; loading ends false |
| `UseProjects.MutationState.ToggleFixed` | src/hooks/projects/use-projects.ts:418-449 | one PATCH to the toggle path of the item, then as `Run` |
| `UseProjects.MutationState.ToggleMultipleFixed` | src/hooks/projects/use-projects.ts:451-489 | one PATCH per id, in input order; the batch result; the error is set on failure and cleared on success; loading ends false |
| `UseProjects.MutationState.AddLink` | src/hooks/projects/use-projects.ts:504-534 | a PUT to `/api/items/{projectId}/` whose body is the link data with `project` set; error recorded and re-thrown |
| `UseProjects.MutationState.UpdateItem` | src/hooks/projects/use-projects.ts:548-570 | a PUT to `/api/items/{itemId}` with body `{is_fixed}`; error recorded and re-thrown |
| `ProjectItemsDto.IsValidMaterialType` | src/types/dto/project-items.dto.ts:84-93 | membership in the listed material types; `IsValidMaterialTypeExactly` states it as the six strings |
| `ProjectItemsDto.IsValidMaterialTypeExactly` | src/types/dto/project-items.dto.ts:84-93 | the guard holds exactly for the six listed strings |
| `ProjectItemsDto.JsToString` | src/types/dto/project-items.dto.ts:101-119 | `String(v)` of a string is that string |
| `ProjectItemsDto.JsToStringTrue` | src/types/dto/project-items.dto.ts:117 | `String(v)` is `"true"` exactly for the boolean `true` and the string `"true"` |
| `ProjectItemsDto.ParseProjectData` | src/types/dto/project-items.dto.ts:96-123 | a keyword list or link list that is not an array becomes empty; otherwise count and order are kept. Every link keeps its id and material type and gets `String(...)` of its link, title, body, flag and both dates; the project keeps its id and gets `String(...)` of its email, name, code and both dates |
| `ProjectItemsDto.StrictLink` | src/types/dto/project-items.dto.ts:129-132 | `isFixed` is true exactly when the string is `"true"` |
| `ProjectItemsDto.ConvertToStrictTypes` | src/types/dto/project-items.dto.ts:126-134 | the project is kept; link count and order are kept; every link field but the flag is unchanged; the flag is true exactly for `"true"` |
| `ProjectItemsDto.StrictLinkRoundTrip` | src/types/dto/project-items.dto.ts:129-132 | writing the flag back as a string undoes the conversion for `"true"`/`"false"` flags; a strict link survives the round trip |
| `ProjectItemsDto.FixedAfterParseAndConvert` | src/types/dto/project-items.dto.ts:110-132 | after parsing and converting, a link is fixed exactly when its JSON flag was `true` or `"true"` |
| `RecommendationContainer.Label` | src/components/recommendation-container/index.tsx:128 | `title \|\| body \|\| 'Untitled'`: never empty, with the three cases |
| `RecommendationContainer.TransformToRecommendationFormat` | src/components/recommendation-container/index.tsx:124-132 | one entry per recommendation, in order, with `id = String(rec.id)`, the label, the link and `checked = isFixed && isActive` |
| `RecommendationContainer.EntryIdsDistinct` | src/components/recommendation-container/index.tsx:126 | recommendations with different ids get different entry ids |
| `RecommendationContainer.RecommendationData` | src/components/recommendation-container/index.tsx:222-230 | the entries with `checked` replaced by selection membership, overriding the item's own flags |
| `RecommendationContainer.SelectedItemIds` | src/components/recommendation-container/index.tsx:181-187 | never more ids than recommendations |
| `RecommendationContainer.SelectedItemIdsExactly` | src/components/recommendation-container/index.tsx:182-185 | an id is gathered exactly when a recommendation carries it and its string form is selected |
| `RecommendationContainer.SelectedItemIdsAppend` | src/components/recommendation-container/index.tsx:181-187 | gathering keeps the recommendation-list order |
| `RecommendationContainer.NothingSelectedGathersNothing` | src/components/recommendation-container/index.tsx:168-193 | with an empty selection no id is gathered, so the early return and the empty-list return agree |
| `RecommendationContainer.GatherItemIds` | src/components/recommendation-container/index.tsx:174-187 | the `forEach`/`push` loop computes exactly the selected ids, in order |
| `RecommendationContainer.AfterToggle` | src/components/recommendation-container/index.tsx:196-213 | the callbacks after the batch settles; `AfterToggleOrder` states their order and that a failure notifies nobody |
| `RecommendationContainer.AfterToggleOrder` | src/components/recommendation-container/index.tsx:196-213 | on success: `onItemsToggled`, then the selection reset, then `onSummaryRefresh` once and last; on failure nothing |
| `RecommendationContainer.AddButtonDisabled` | src/components/recommendation-container/index.tsx:281 | the button is disabled with an empty selection or a toggle in flight; what pressing it then does is stated by `EnabledButtonSendsPatches` |
| `RecommendationContainer.EnabledButtonSendsPatches` | src/components/recommendation-container/index.tsx:165-187 | pressing the enabled button passes the empty-selection guard, gathers at least one id when a listed recommendation is selected, and sends that recommendation's PATCH |
| `RecommendationContainer.RecommendationContainerState.constructor` | src/components/recommendation-container/index.tsx:141-142 | the selection starts empty |
| `RecommendationContainer.RecommendationContainerState.HandleResourceChange` | src/components/recommendation-container/index.tsx:144-163 | checking adds the id, unchecking removes it; no other member changes |
| `RecommendationContainer.RecommendationContainerState.HandleAddSelected` | src/components/recommendation-container/index.tsx:165-213 | nothing gathered: no request, no callback, nothing changes. Otherwise one PATCH per gathered id; the callbacks as `AfterToggle`; the selection cleared exactly on success; the toggle hook ends not loading, with no error on success and the batch's failure message otherwise |
| `CreateProjectModal.InferMaterialType` | src/components/create-project-modal/index.tsx:269-277 | the result is always `github`, `jira`, `slack` or `web` |
| `CreateProjectModal.InferMaterialTypeRules` | src/components/create-project-modal/index.tsx:272-276 | each result, in both directions: the first of `github.com`, `jira`, `slack.com` found in the lower-cased link decides, else `web` |
| `CreateProjectModal.InferMaterialTypeIgnoresCase` | src/components/create-project-modal/index.tsx:272 | a link and its lower-cased form get the same type |
| `CreateProjectModal.InferredTypeValidUnlessWeb` | src/components/create-project-modal/index.tsx:269-277 | every inferred type except `web` passes the `MaterialType` guard |
| `CreateProjectModal.MergeLinkItem` | src/components/create-project-modal/index.tsx:78 | `{...item, ...patch}`: a field in the patch wins, any other field is kept |
| `CreateProjectModal.RemoveAt` | src/components/create-project-modal/index.tsx:72-74 | only the entry at the index is removed; an index outside the list removes nothing |
| `CreateProjectModal.UpdateAt` | src/components/create-project-modal/index.tsx:76-80 | only the entry at the index is merged with the patch; an index outside the list changes nothing |
| `CreateProjectModal.ValidLinkItems` | src/components/create-project-modal/index.tsx:91-96 | never more items than the form holds; every kept item has a non-empty link |
| `CreateProjectModal.ValidLinkItemsTrimmed` | src/components/create-project-modal/index.tsx:92-95 | every kept item has type and link trimmed |
| `CreateProjectModal.ValidLinkItemsComplete` | src/components/create-project-modal/index.tsx:96 | no item whose trimmed link is non-empty is dropped |
| `CreateProjectModal.ValidLinkItemsInOrder` | src/components/create-project-modal/index.tsx:91-96 | the filter keeps list order, and decides each item by its own trimmed link alone |
| `CreateProjectModal.PayloadType` | src/components/create-project-modal/index.tsx:120-121 | the trimmed type when it is non-empty, else the inferred type; never empty |
| `CreateProjectModal.MaterialPayloads` | src/components/create-project-modal/index.tsx:117-125 | one payload per valid item, in order, each with the project id, the item's link and its type |
| `CreateProjectModal.KeywordString` | src/components/create-project-modal/index.tsx:101-104 | `keywordString`; `KeywordStringIsJoin` proves it equal to the comma-join of the parsed tokens for every input |
| `CreateProjectModal.KeywordStringIsJoin` | src/components/create-project-modal/index.tsx:101-104 | `keywordString` is always the comma-join of the tokens; the blank-input guard changes nothing |
| `CreateProjectModal.KeywordOmittedIffNoTokens` | src/components/create-project-modal/index.tsx:101-139 | the creation body omits the keyword exactly when no token survives; the trigger body then has `''`; otherwise both carry the same joined string |
| `CreateProjectModal.BlankKeywordOmitted` | src/components/create-project-modal/index.tsx:101-139 | a whitespace-only keyword input is `undefined` in the creation body and `''` in the trigger body |
| `CreateProjectModal.CreatedKeywordsReadBack` | src/components/create-project-modal/index.tsx:101-139 | the keyword sent reads back through `listProjects` as exactly the tokens typed into the form |
| `CreateProjectModal.MaterialCallsShape` | src/components/create-project-modal/index.tsx:117-129 | one material call per valid item, in order, carrying that item's payload |
| `CreateProjectModal.RequestOf` | src/api/projects.api.ts:57-101 | every API call of `submit` is a POST; the navigation is not a request |
| `CreateProjectModal.TriggerRequestsDistinct` | src/components/create-project-modal/index.tsx:141-144 | the two triggers go to different endpoints, both naming the created project |
| `CreateProjectModal.RequiredMissing` | src/components/create-project-modal/index.tsx:85 | the untrimmed required-field test; `MissingFieldMakesNoCall` states that it stops the submission before any call |
| `CreateProjectModal.SubmitPlan` | src/components/create-project-modal/index.tsx:82-152 | the phase order of `submit`; the lemmas below state each phase's calls and error, and `RunPhases` proves the stepwise body equal to it |
| `CreateProjectModal.MissingFieldMakesNoCall` | src/components/create-project-modal/index.tsx:85-88 | an empty email, name or code sets the required-fields error and makes no API call |
| `CreateProjectModal.SubmitCreatesFirst` | src/components/create-project-modal/index.tsx:106-114 | with the required fields present, the project creation is the first call, and the only one when it is rejected |
| `CreateProjectModal.SubmitSucceedsIffAllPhases` | src/components/create-project-modal/index.tsx:113-151 | no error exactly when creation and triggers succeed and the materials succeed or are not needed |
| `CreateProjectModal.CallsBeforeNavigation` | src/components/create-project-modal/index.tsx:113-144 | none of the calls before the navigation navigates |
| `CreateProjectModal.NavigationOnlyOnSuccess` | src/components/create-project-modal/index.tsx:141-148 | a submission without error ends by navigating to the new project's page, its only navigation; one with an error never navigates |
| `CreateProjectModal.SubmitAfterCreation` | src/components/create-project-modal/index.tsx:116-144 | after creation come the material calls, one per valid item, then the two triggers; a rejected material phase stops before the triggers |
| `CreateProjectModal.CreateProjectModalState.constructor` | src/components/create-project-modal/index.tsx:48-57 | empty fields, one `{github, ''}` link item, not loading, no error |
| `CreateProjectModal.CreateProjectModalState.Edit` | src/components/create-project-modal/index.tsx:164-189 | each text input sets its own field and no other |
| `CreateProjectModal.CreateProjectModalState.AddLinkItem` | src/components/create-project-modal/index.tsx:65-70 | appends `{web, ''}` |
| `CreateProjectModal.CreateProjectModalState.RemoveLinkItem` | src/components/create-project-modal/index.tsx:72-74 | deletes only the entry at the index |
| `CreateProjectModal.CreateProjectModalState.UpdateLinkItem` | src/components/create-project-modal/index.tsx:76-80 | merges the patch into the entry at the index; the length and all other entries are unchanged |
| `CreateProjectModal.CreateProjectModalState.Submit` | src/components/create-project-modal/index.tsx:82-152 | the calls and the error are those of the submit plan on the current form; loading ends false once a request was made |
| `CreateProjectModal.CreateProjectModalState.RunPhases` | src/components/create-project-modal/index.tsx:83-151 | the step-by-step phases produce exactly the plan's calls and error |
| `CheckboxList.CheckedMap` | src/components/resources-list.tsx:90-98 | the initial record has a key for every item id |
| `CheckboxList.InitialChecked` | src/components/recommendation-container/recommendation-list.tsx:90-98 | no items gives the empty record |
| `CheckboxList.CheckedMapKeys` | src/components/recommendation-container/recommendation-list.tsx:91-97 | the keys are exactly the item ids |
| `CheckboxList.LastDuplicateWins` | src/components/resources-list.tsx:91-97 | an id's initial value is `checked \|\| false` of the last item carrying that id |
| `CheckboxList.Clicked` | src/components/recommendation-container/recommendation-list.tsx:129-134 | a click negates what the checkbox shows; a missing key becomes true; no other key changes |
| `CheckboxList.ClickTwice` | src/components/resources-list.tsx:128-131 | two clicks bring back what the checkbox showed |
| `CheckboxList.CheckboxListState.constructor` | src/components/resources-list.tsx:90-98 | the record starts as the initial record of the items |
| `CheckboxList.CheckboxListState.HandleCheckboxChange` | src/components/resources-list.tsx:100-105 | sets only `id ↦ checked`, and forwards `(id, checked)` exactly when the callback is present |
| `CheckboxList.CheckboxListState.HandleWrapperClick` | src/components/recommendation-container/recommendation-list.tsx:128-135 | the record becomes the clicked record, and the negated value is forwarded |
| `AddLinkModal.FieldValue` | src/components/add-link-modal/index.tsx:161-166 | a checkbox stores its boolean, a number field `parseInt(value) \|\| 0`, any other field the raw text |
| `AddLinkModal.NumberFieldValue` | src/components/add-link-modal/index.tsx:165 | a number field given a numeral stores that number; one given text without digits stores 0 |
| `AddLinkModal.AfterChange` | src/components/add-link-modal/index.tsx:158-167 | only the named field changes, to the event's value |
| `AddLinkModal.RenderedEventKeepsShape` | src/components/add-link-modal/index.tsx:204-271 | events from the rendered inputs keep every field's type and leave both flags alone |
| `AddLinkModal.FlagsStayTrue` | src/components/add-link-modal/index.tsx:143-271 | after any edits through the rendered inputs, `is_fixed` and `is_active` are still true |
| `AddLinkModal.SubmitDisabled` | src/components/add-link-modal/index.tsx:286 | the submit button's `disabled` expression; `SubmitDisabledExactly` states it on the field texts |
| `AddLinkModal.SubmitDisabledExactly` | src/components/add-link-modal/index.tsx:286 | disabled exactly when loading, or the title is empty, or the link is empty; the fresh form is disabled |
| `AddLinkModal.AddLinkFormState.constructor` | src/components/add-link-modal/index.tsx:143-151 | the defaults: empty texts, both flags true, material id 0 |
| `AddLinkModal.AddLinkFormState.HandleChange` | src/components/add-link-modal/index.tsx:153-168 | the record after the change event |
| `AddLinkModal.AddLinkFormState.ResetForm` | src/components/add-link-modal/index.tsx:175-185 | back to the same defaults as the initial form |
| `AddLinkModal.AddLinkFormState.HandleClose` | src/components/add-link-modal/index.tsx:187-190 | the form is reset before `onClose` is called |
| `AddLinkModal.AddLinkFormState.HandleSubmit` | src/components/add-link-modal/index.tsx:170-173 | passes the current record to `onSubmit` unchanged |
| `ProjectListPage.FallbackProjects` | src/pages/project-list-page/index.tsx:48-60 | one sample project, id 1, code `SMG-001` |
| `ProjectListPage.ProjectListPageState.constructor` | src/pages/project-list-page/index.tsx:64-65 | no projects and no error at first |
| `ProjectListPage.ProjectListPageState.OnCreated` | src/pages/project-list-page/index.tsx:68-70 | the new project goes first, with the old order after it; the error is kept |
| `ProjectListPage.LoadEffect.constructor` | src/pages/project-list-page/index.tsx:73 | a new effect run is alive |
| `ProjectListPage.LoadEffect.Cleanup` | src/pages/project-list-page/index.tsx:88-90 | the cleanup clears `alive` |
| `ProjectListPage.LoadEffect.Settle` | src/pages/project-list-page/index.tsx:74-87 | while alive: success shows the converted list; failure sets the message or the default message and shows the fallback list. After cleanup nothing is written |
| `ProjectListPage.MountAndLoad` | src/pages/project-list-page/index.tsx:72-87 | a mounted page ends with the loaded list and no error, or with the fallback list and a non-empty error |
| `ProjectListPage.UnmountBeforeLoad` | src/pages/project-list-page/index.tsx:72-91 | a load that settles after unmount leaves the page as it was created |

## Left out

- Network I/O: `fetch` and axios are not modelled. Each response comes in as a parameter (`HttpOutcome` or `Settled`), and the request is recorded by its method and path.
- Concurrency in `Promise.all`: the model treats a batch as a sequential map. It reports the first failure in list order, whereas at run time the first rejection to arrive wins.
- The `'An error occurred'` fallback for a thrown value that is not an `Error` is not modelled. Every failure in the model carries a message.
- `toLowerCase` is modelled for ASCII letters only; letters outside ASCII keep their case. `trim` uses the white-space and line-terminator set of section 12.2 and 12.3 of ECMA-262.
- Numbers are integers. `parseInt` is modelled for integers, decimal or `0x` hex, so fractions and precision limits are left out.
- `Number()` and `String()` are modelled only for integers, booleans, strings, `null` and `undefined`.
- ProjectItemsDto.ParseProjectData: ids are taken as integers, so the `Number(...)` coercion of ids is not modelled.
- ProjectItemsDto.JsToString: its contract states only the string case; the other cases are stated through `JsToStringTrue`.
- Rendering, styling and routing are left out, apart from the submit-disabled predicates and the inputs the add-link modal renders. The `navigate('/project/…')` path is recorded as sent; the model does not claim that it matches a route.
- Dates are left out: `ymd`, `convertToDates` and `toLocaleDateString`. So are `Math.random` in `randomBridge`, `console` logging and `window.open`.
- React scheduling is left out: effects that re-run when their dependencies change, stale `useCallback` closures, and a `useState` initialiser running only on the first render. Hook state is modelled as fields that change at once.
- `onSuccess` of the creation modal is never called by the modal itself, so it is not modelled. The page's `onCreated` is modelled on its own.
- CreateProjectModal.CreatedKeywordsReadBack assumes the server stores the keyword string exactly as it was sent.
- RecommendationContainer.AddButtonDisabled, AddLinkModal.SubmitDisabled, ProjectItemsDto.IsValidMaterialType, RecommendationContainer.AfterToggle, CreateProjectModal.KeywordString, CreateProjectModal.RequiredMissing and CreateProjectModal.SubmitPlan carry no `ensures` of their own; what they mean is stated by the lemmas named in their rows.
- UseProjects.MissingFourthResultMessage is the wording of the V8 engine's `TypeError`; other engines word that message differently, and the model does not cover them.
- ProjectItemsDto.ParseProjectData: a document without `project` makes `parseProjectData` throw a `TypeError`. The model's `JsonProjectData` always carries a project, so that error path is not modelled.
- The axios base URL and its JSON header are left out; every request path is recorded relative to the base.
- RecommendationContainer.SelectedItemIds: its own contract only bounds the length; which ids it gathers is stated in the lemmas beside it.
- ProjectListPage.FallbackProjects: its contract names only the id and code; the keyword list is the split-and-trim expression itself.
- The `useProjects`, `useRecommendations`, `useSummaries` and `useRecommendationItems` hooks share `FetchState`. Each differs only in which decoded payload it stores, and those payloads are taken as given types.
