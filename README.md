# StaffService web client: a Dafny model

This project models the client-side logic of StaffService, a hospital
staff administration web client. It covers four kinds of records:
employees, medical staff, departments and positions. The model proves
properties of that logic.

What is modelled:

- **Store slices.** Each entity has a slice holding `items`, `loading` and
  `error`. The employee slice adds an image-upload sub-state. Each reducer
  is a pure `Reduce` function. A store class applies the reducer to its
  fields in place, and its `Dispatch` method is proved to agree with
  `Reduce`. The shared list edits are `ReplaceById` and `RemoveById`
  (`item_list.dfy`). Each slice's case reducers assign fields of the
  Immer draft (`state.loading = …`, `state.items.push(…)`); those
  assignments are the methods of the `Store` class in `entity_store.dfy`.
- **Effect workers.** Each worker is a function from how its API call
  ended (`Outcome`: a returned envelope or a thrown value) to the call it
  makes and the actions it puts. The `Settles` lemmas compose each
  worker with its reducer: they state the store a request settles to.
- **Employee list page.** This covers the sort-state toggle, the
  copy-then-sort of the list and the trimmed search. The sort is an
  insertion sort on an array, proved to give a sorted permutation. The
  page object's handlers record the actions they dispatch. The list
  engine's own sorting algorithm is not modelled (see "Left out").
- **Employee register page and detail edit form.** The fifteen-field
  draft (`employee_form.dfy`), the phone-digit and address updaters, the
  image check and the multipart body. Each page is a class whose handlers
  update the draft, the chosen file and the dispatched actions.
- **Employee detail card.** The image-url host rewrite, the e-mail, phone
  and address joins, and the `"-"` shown for an empty row.
- **Form dialogs** for medical staff, departments and positions. This
  covers defaults, the merge done when a dialog opens, the field and
  select updaters and the submit guards. The medical-staff dialog is a
  class, because its handlers update three pieces of state.
- **Medical-staff page.** The update payload, the create request's parts,
  the select options, and the page's dispatches.
- **Application shell.** The active menu, the sidebar groups, the
  open-group map, and the collapsed setting kept in browser storage.

JavaScript's string operations are written out in `text.dfy`: `trim`,
`replace` of the first occurrence, the digit filter, `slice`,
`filter(Boolean).join` and string `<`. A multipart body is a list of named
parts (`multipart.dfy`).

No effect worker listens for the employee image-upload request
(frontend/entities/employee/model/employeesSaga.ts:214-224), and nothing
in the client puts the upload success or failure actions. The model keeps
this as written, and `EmployeesSaga.UploadRequestStaysPending` states the
consequence: once requested, an upload stays pending until it is reset.

## Model

| member | source | states |
|---|---|---|
| Text.Trim | frontend/app/employees/page.tsx:64-66 | `String.prototype.trim`: the result is a contiguous piece of the input, everything cut before and after it is JavaScript white space, neither of its ends is white space, and it is empty exactly when the input is all white space |
| Text.TrimCutsOnlyWhitespace | frontend/app/employees/page.tsx:64-66 | everything the two trimming passes cut, before and after the kept piece, is JavaScript white space, and the kept piece sits at that offset of the input |
| Text.TrimLeavesNoWhitespaceEnds | frontend/app/employees/page.tsx:64-66 | the trimmed string begins and ends with a non-white-space character, and it is empty exactly when the input is all white space |
| Text.TrimIdempotent | frontend/app/employees/page.tsx:64-66 | trimming an already trimmed string changes nothing |
| Text.ReplaceFirst | frontend/components/employee/detail/EmployeeDetail.tsx:22-25 | `replace` with a string pattern: when the pattern never occurs the string is unchanged, otherwise exactly its first occurrence is replaced |
| Text.KeepDigits | frontend/app/employees/register/page.tsx:174-184 | `replace(/[^0-9]/g, "")`: the result holds only the digits 0-9 and is no longer than the input, and a single character is kept exactly when it is a digit |
| Text.KeepDigitsAppend | frontend/app/employees/register/page.tsx:174-184 | the digit filter distributes over concatenation |
| Text.KeepDigitsOfDigits | frontend/app/employees/register/page.tsx:174-184 | a string of digits passes the digit filter unchanged, so the filter is idempotent |
| Text.Take | frontend/app/employees/register/page.tsx:178-183 | `slice(0, n)`: a prefix of the input of exactly n characters when the input is longer, and the whole input otherwise |
| Text.KeepTruthy | frontend/components/employee/detail/EmployeeDetail.tsx:34-46 | `filter(Boolean)`: every kept part is non-empty, and nothing is kept exactly when no part is present and non-empty |
| Text.KeepTruthyCons | frontend/components/employee/detail/EmployeeDetail.tsx:34-46 | `filter(Boolean)` keeps the first part exactly when it is present and non-empty, in front of the filtered rest |
| Text.Join | frontend/components/employee/detail/EmployeeDetail.tsx:34-46 | `join(sep)`: the empty list joins to "", one part to itself, and a longer list starts with its first part |
| Text.JoinConcat | frontend/components/employee/detail/EmployeeDetail.tsx:34-46 | joining two non-empty lists back to back is their joins with one separator between, so every neighbour pair is separated exactly once |
| Text.JoinEmptyIff | frontend/components/employee/detail/EmployeeDetail.tsx:39-42 | joining non-empty strings gives the empty string exactly for the empty list |
| Text.JoinTruthy | frontend/components/employee/detail/EmployeeDetail.tsx:34-46 | `filter(Boolean).join(sep)` is empty exactly when no part is present and non-empty |
| Text.JoinTruthyTwo | frontend/components/employee/detail/EmployeeDetail.tsx:34-37 | the two-part join, case by case: both parts with the separator, the one non-empty part, or the empty string |
| Text.JoinTruthyThree | frontend/components/employee/detail/EmployeeDetail.tsx:39-42 | three present non-empty parts join as first, separator, second, separator, third |
| Text.LexLess | frontend/app/employees/page.tsx:147-149 | JavaScript `<` on strings: a proper prefix is smaller, a string is never below one of its own prefixes, and nothing is below ""; `LexLessIrreflexive`, `LexLessTrichotomy` and `LexLessTransitive` prove it a strict total order |
| Text.LexLessIrreflexive | frontend/app/employees/page.tsx:144-150 | the string order the comparator uses is irreflexive |
| Text.LexLessTrichotomy | frontend/app/employees/page.tsx:144-150 | any two strings are ordered one way, equal, or ordered the other way, and never both ways |
| Text.LexLessTransitive | frontend/app/employees/page.tsx:144-150 | the string order is transitive |
| Text.NumberOrNull | frontend/components/department/form-modal/DepartmentFormModal.tsx:115-121 | `e.target.value === "" ? null : Number(e.target.value)`: null exactly for the empty input, otherwise the parsed number |
| ItemList.ReplaceById | frontend/entities/employee/model/employeesSlice.ts:185-195 | `items.map(i => i.id === x.id ? x : i)`: same length, every item with the id becomes x and every other item stays at its place |
| ItemList.ReplaceKeepsIds | frontend/entities/employee/model/employeesSlice.ts:185-195 | replacing by id never changes the id found at any position |
| ItemList.ReplaceAbsentIsIdentity | frontend/entities/employee/model/employeesSlice.ts:185-195 | when no item carries the id, the replacement leaves the list as it was |
| ItemList.ReplaceIdempotent | frontend/entities/employee/model/employeesSlice.ts:185-195 | replacing twice with the same record is replacing once |
| ItemList.RemoveById | frontend/entities/employee/model/employeesSlice.ts:220-228 | `items.filter(i => i.id !== id)`: no item with the id remains and the list never grows |
| ItemList.RemoveDistributes | frontend/entities/employee/model/employeesSlice.ts:220-228 | removal by id distributes over concatenation, so the kept items stay in their order |
| ItemList.RemoveAbsentIsIdentity | frontend/entities/employee/model/employeesSlice.ts:220-228 | removing an id no item carries leaves the list as it was |
| ItemList.RemoveRemovesExactly | frontend/entities/employee/model/employeesSlice.ts:220-228 | removal drops the id, and an item is in the result exactly when it was in the list with another id |
| ItemList.RemoveIdempotent | frontend/entities/employee/model/employeesSlice.ts:220-228 | removing the same id twice is removing it once |
| ItemList.RemoveAfterReplace | frontend/entities/employee/model/employeesSlice.ts:185-228 | deleting an id after updating that id gives the same list as deleting it straight away |
| Effects.GetErrorMessage | frontend/entities/employee/model/employeesSaga.ts:49-55 | an `Error`'s own message; `"Unknown error"` for any other thrown value |
| Effects.Decide | frontend/entities/employee/model/employeesSaga.ts:58-84 | success with the result exactly when the call returned, `success` holds and a result is present; otherwise failure with the envelope's message, or with `getErrorMessage` of what was thrown |
| Effects.DecideDelete | frontend/entities/employee/model/employeesSaga.ts:168-189 | delete succeeds with the requested id exactly when the call returned and `success` holds; otherwise it fails with the message or the thrown value's message |
| Effects.DeleteIgnoresResult | frontend/entities/employee/model/employeesSaga.ts:171-176 | the delete decision does not depend on the envelope's `result` |
| Effects.ThrownAlwaysRejects | frontend/entities/employee/model/employeesSaga.ts:78-83 | a thrown value leads every kind of worker to a failure carrying `getErrorMessage(err)` |
| EntityStore.Store.constructor | frontend/entities/employee/model/employeesSlice.ts:56-64 | the shared fields start as `initialState`: no items, not loading, no error |
| EntityStore.Store.Request | frontend/entities/employee/model/employeesSlice.ts:73-77 | the draft becomes the request transition of the old state: loading, no error, items unchanged |
| EntityStore.Requested | frontend/entities/employee/model/employeesSlice.ts:73-77 | every request reducer: loading set, error cleared, items and response kept |
| EntityStore.Loaded | frontend/entities/employee/model/employeesSlice.ts:93-98 | fetch success: loading stops, the payload becomes the list, error and response kept |
| EntityStore.Appended | frontend/entities/employee/model/employeesSlice.ts:152-160 | create success: loading stops and the list is the old items followed by the payload |
| EntityStore.Replaced | frontend/entities/employee/model/employeesSlice.ts:185-195 | update success: loading stops, same length, the payload at every matching id and every other item in place |
| EntityStore.Removed | frontend/entities/employee/model/employeesSlice.ts:220-228 | delete success: loading stops and the list becomes the by-id filter of the old one, so no item keeps the id, every item with another id survives in its order, and no item is added |
| EntityStore.Failed | frontend/entities/employee/model/employeesSlice.ts:101-108 | every failure reducer: loading stops, the message becomes the error, items and response kept |
| EntityStore.Store.Load | frontend/entities/employee/model/employeesSlice.ts:93-98 | the draft becomes the fetch-success transition: the payload is the list and loading stops |
| EntityStore.Store.LoadOne | frontend/entities/employee/model/employeesSlice.ts:121-127 | the draft becomes the fetch-one transition: the list is `[payload]` |
| EntityStore.Store.Push | frontend/entities/employee/model/employeesSlice.ts:152-160 | `state.items.push(payload)` on the draft: the payload is appended after the old items |
| EntityStore.Store.Replace | frontend/entities/employee/model/employeesSlice.ts:185-195 | the draft's list becomes the replace-by-id of the old list |
| EntityStore.Store.Remove | frontend/entities/employee/model/employeesSlice.ts:220-228 | the draft's list becomes the remove-by-id of the old list |
| EntityStore.Store.Fail | frontend/entities/employee/model/employeesSlice.ts:101-108 | the draft becomes the failure transition: loading stops and the message is the error |
| EmployeeForm.Set | frontend/app/employees/register/page.tsx:169-172 | `{ ...prev, [key]: value }`: the key reads back the new value and every other key keeps its value |
| EmployeeForm.FormExtensionality | frontend/app/employees/register/page.tsx:169-172 | two drafts that agree on every key are equal |
| EmployeeForm.SetLaws | frontend/app/employees/register/page.tsx:169-172 | writing back a key's own value changes nothing, and a second write to a key overrides the first |
| EmployeeForm.MergeUploadedUrl | frontend/app/employees/register/page.tsx:138-145 | a set upload url becomes `profileImageUrl` and no other key changes; an unset url changes nothing |
| EmployeesSlice.ReduceAllOne | frontend/entities/employee/model/employeesSlice.ts:307-340 | reducing a one-action sequence is reducing that action |
| EmployeesSlice.Initial | frontend/entities/employee/model/employeesSlice.ts:56-64 | `initialState`: no items, not loading, no error, and the empty unsuccessful envelope as `apiresponse`; no upload url, not uploading, no upload error |
| EmployeesSlice.ReduceUpload | frontend/entities/employee/model/employeesSlice.ts:242-271 | the upload reducers: uploading exactly after a request, a url only after a success (or kept through a failure), an error only after a failure (or kept through a success) |
| EmployeesSlice.ReduceCrud | frontend/entities/employee/model/employeesSlice.ts:73-305 | the list reducers: loading exactly after a request, items kept by requests and failures, `apiresponse` never written |
| EmployeesSlice.Reduce | frontend/entities/employee/model/employeesSlice.ts:307-340 | the slice reducer: upload actions leave the shared fields alone and every other action leaves the upload fields alone |
| EmployeesSlice.RequestStartsLoading | frontend/entities/employee/model/employeesSlice.ts:73-77 | every request reducer sets loading, clears the error, and leaves the items and the upload fields alone |
| EmployeesSlice.FailureRecordsMessage | frontend/entities/employee/model/employeesSlice.ts:101-108 | every failure reducer stops loading and stores its message, leaving items and upload fields alone |
| EmployeesSlice.SuccessKeepsError | frontend/entities/employee/model/employeesSlice.ts:93-98 | every success reducer stops loading and leaves the error as it was |
| EmployeesSlice.FetchSuccessReplacesItems | frontend/entities/employee/model/employeesSlice.ts:93-98 | fetch-all and by-condition success make the payload the list, in order; fetch-one makes it `[payload]` |
| EmployeesSlice.CreateSuccessAppends | frontend/entities/employee/model/employeesSlice.ts:152-160 | create success grows the list by one: the old items, then the payload |
| EmployeesSlice.UpdateSuccessReplacesById | frontend/entities/employee/model/employeesSlice.ts:185-195 | update success keeps the length, puts the payload at every matching id and keeps the rest; with no match the list is unchanged |
| EmployeesSlice.DeleteSuccessRemovesById | frontend/entities/employee/model/employeesSlice.ts:220-228 | delete success leaves the by-id filter of the old list: no item with the id, every other item kept in order, none added |
| EmployeesSlice.UploadTransitions | frontend/entities/employee/model/employeesSlice.ts:242-271 | upload request: uploading, no url, no error; success: the url; failure: the error; reset: the initial upload state; none of them touches items, loading or error |
| EmployeesSlice.UploadOnlyByUploadActions | frontend/entities/employee/model/employeesSlice.ts:242-271 | any sequence of non-upload actions leaves the upload fields as they were |
| EmployeesSlice.ApiResponseNeverChanges | frontend/entities/employee/model/employeesSlice.ts:56-64 | no sequence of actions changes `apiresponse` |
| EmployeesSlice.EmployeesStore.constructor | frontend/entities/employee/model/employeesSlice.ts:56-64 | the store starts in `initialState` |
| EmployeesSlice.EmployeesStore.Dispatch | frontend/entities/employee/model/employeesSlice.ts:307-340 | dispatching an action moves the store to the reducer's next state |
| EmployeesSlice.EmployeesStore.DispatchUpload | frontend/entities/employee/model/employeesSlice.ts:242-271 | an upload action changes only the three upload fields, as the upload reducers say |
| EmployeesSlice.EmployeesStore.DispatchCrud | frontend/entities/employee/model/employeesSlice.ts:73-239 | a non-upload action changes only the shared fields, as the list reducers say |
| EmployeesSaga.FetchEmployeesWorker | frontend/entities/employee/model/employeesSaga.ts:58-84 | calls the fetch-all api, then puts exactly one action: success with the result when accepted, else failure with the message or the thrown value's message |
| EmployeesSaga.FetchEmployeeWorker | frontend/entities/employee/model/employeesSaga.ts:86-112 | calls the fetch-one api with the requested id and puts exactly one success or failure action |
| EmployeesSaga.CreateEmployeeWorker | frontend/entities/employee/model/employeesSaga.ts:114-143 | calls the create api with the form data and puts exactly one success or failure action |
| EmployeesSaga.UpdateEmployeeWorker | frontend/entities/employee/model/employeesSaga.ts:145-166 | calls the update api with the payload's id and data unchanged and puts exactly one success or failure action |
| EmployeesSaga.DeleteEmployeeWorker | frontend/entities/employee/model/employeesSaga.ts:168-189 | calls the delete api with the id; success carries the requested id when `success` holds |
| EmployeesSaga.FetchEmployeesByConditionWorker | frontend/entities/employee/model/employeesSaga.ts:191-210 | calls the search api with the condition and puts exactly one success or failure action |
| EmployeesSaga.FetchEmployeesSettles | frontend/entities/employee/model/employeesSaga.ts:58-84 | request then the worker's action: not loading, upload fields unchanged, the fetched list and no error when accepted, else the old list and the message |
| EmployeesSaga.FetchByConditionSettles | frontend/entities/employee/model/employeesSaga.ts:191-210 | a search settles like a fetch-all |
| EmployeesSaga.FetchEmployeeSettles | frontend/entities/employee/model/employeesSaga.ts:86-112 | a fetch-one settles with `[result]` or with the old list and the message |
| EmployeesSaga.CreateEmployeeSettles | frontend/entities/employee/model/employeesSaga.ts:114-143 | a create settles with the result appended or with the old list and the message |
| EmployeesSaga.UpdateEmployeeSettles | frontend/entities/employee/model/employeesSaga.ts:145-166 | an update settles with the result replacing its id or with the old list and the message |
| EmployeesSaga.DeleteEmployeeSettles | frontend/entities/employee/model/employeesSaga.ts:168-189 | a delete settles with the id removed or with the old list and the message |
| EmployeesSaga.UploadRequestStaysPending | frontend/entities/employee/model/employeesSaga.ts:214-224 | the root saga watches no upload action, so after an upload request any non-upload actions leave it pending with no url and no error |
| EmployeesSaga.Watched | frontend/entities/employee/model/employeesSaga.ts:214-221 | `employeesSaga` takes exactly the six request actions, so no upload action is watched |
| EmployeesSaga.RunJob | frontend/entities/employee/model/employeesSaga.ts:214-221 | the worker started for each watched request puts no upload action |
| EmployeesSaga.JobPuts | frontend/entities/employee/model/employeesSaga.ts:214-221 | the actions any series of workers puts, none of them an upload action |
| EmployeesSaga.UploadPendingThroughWorkers | frontend/entities/employee/model/employeesSaga.ts:214-221 | after an image-upload request, whatever workers run, the upload stays pending with no url and no error |
| EmployeesPage.InitialSort | frontend/app/employees/page.tsx:46-47 | the page starts sorted by employee id ascending, so a first click on that header sorts descending and on any other header ascending |
| EmployeesPage.HandleSort | frontend/app/employees/page.tsx:90-101 | the chosen field becomes the sort field; the same field flips the direction and a new field starts ascending |
| EmployeesPage.HandleSortTwiceRestores | frontend/app/employees/page.tsx:90-101 | sorting twice by the current field restores the sort state |
| EmployeesPage.SortKey | frontend/app/employees/page.tsx:141-142 | `a[sort.field] ?? ""`: the employee id, the name, or the department with a missing one read as "", which sorts below every other key |
| EmployeesPage.CompareMeaning | frontend/app/employees/page.tsx:139-150 | the comparator is zero exactly for equal keys, is antisymmetric, and is at most zero exactly when the pair is in the chosen order |
| EmployeesPage.Compare | frontend/app/employees/page.tsx:140-150 | the comparator returns -1, 0 or 1, and 0 exactly for equal keys |
| EmployeesPage.ConditionName | frontend/app/employees/page.tsx:71-74 | each search field sends its own condition string: `name`, `employeeId` or `department` |
| EmployeesPage.InOrderTransitive | frontend/app/employees/page.tsx:139-150 | the chosen order, ascending or descending, is transitive |
| EmployeesPage.NeighboursGiveSorted | frontend/app/employees/page.tsx:139-152 | a list whose neighbours are in order is sorted pairwise |
| EmployeesPage.LastAbove | frontend/app/employees/page.tsx:139-152 | in such a list every item is in order with the last one |
| EmployeesPage.Swapped | frontend/app/employees/page.tsx:139-152 | swapping two neighbours keeps the length and the multiset of items |
| EmployeesPage.SwapSinks | frontend/app/employees/page.tsx:139-152 | one exchange step of the in-place sort keeps the sorted-prefix invariant |
| EmployeesPage.Insert | frontend/app/employees/page.tsx:139-152 | in place on the copied array: the items are a permutation of the old ones and one more item is in order |
| EmployeesPage.SortedItems | frontend/app/employees/page.tsx:136-153 | a missing list gives `[]`; otherwise a copy with the same length and the same items, sorted by the chosen key (missing as `""`) in the chosen direction |
| EmployeesPage.SearchRequest | frontend/app/employees/page.tsx:63-80 | nothing exactly when the query is blank after trimming; otherwise a by-condition request with the selected field and the trimmed, non-empty query |
| EmployeesPage.ListPage.constructor | frontend/app/employees/page.tsx:42-59 | empty query, search by name, sort by employee id ascending, no delete selection, and a fetch-all dispatched on mount |
| EmployeesPage.ListPage.QueryChange | frontend/app/employees/page.tsx:105-107 | the query becomes the typed value and nothing else changes |
| EmployeesPage.ListPage.SearchFieldChange | frontend/app/employees/page.tsx:109-111 | the search field becomes the chosen one and nothing else changes |
| EmployeesPage.ListPage.Search | frontend/app/employees/page.tsx:63-80 | dispatches the search request when the query is not blank, nothing otherwise |
| EmployeesPage.ListPage.ShowAll | frontend/app/employees/page.tsx:82-86 | clears the query and dispatches fetch-all |
| EmployeesPage.ListPage.KeyDown | frontend/app/employees/page.tsx:113-117 | Enter outside composition searches; any other key changes nothing |
| EmployeesPage.ListPage.SortBy | frontend/app/employees/page.tsx:90-101 | the sort state becomes `handleSort` of the old one |
| EmployeesPage.ListPage.DeleteClick | frontend/app/employees/page.tsx:121-124 | selects the id and opens the confirm dialog |
| EmployeesPage.ListPage.ConfirmDelete | frontend/app/employees/page.tsx:126-132 | dispatches delete for the selected id only when one is selected; either way clears the selection and closes the dialog |
| EmployeeRegister.InitialForm | frontend/app/employees/register/page.tsx:57-73 | `INITIAL_FORM`: mail domain `naver.com`, phone prefix `010`, every other key empty |
| EmployeeRegister.MaxPhoneLength | frontend/app/employees/register/page.tsx:178-179 | the cap is 3 exactly for the middle part under a prefix other than `010`, otherwise 4 |
| EmployeeRegister.IsImage | frontend/app/employees/register/page.tsx:211 | a file is an image exactly when its type is `image/` followed by anything |
| EmployeeRegister.PhoneChange | frontend/app/employees/register/page.tsx:174-184 | the phone part holds the typed digits cut to the cap (3 for the middle part under a prefix other than `010`, 4 otherwise): all of them when they fit, otherwise exactly the first cap-many; no other key changes |
| EmployeeRegister.PhoneChangeIsStable | frontend/app/employees/register/page.tsx:174-184 | typing back what a phone part shows changes nothing |
| EmployeeRegister.PrefixChange | frontend/app/employees/register/page.tsx:186-195 | sets the prefix, empties the middle and last parts, and keeps every other key |
| EmployeeRegister.AddressPicked | frontend/app/employees/register/page.tsx:238-249 | zip code from `zonecode ?? ""`; address1 from the road address when the user picked "R", the lot-number address otherwise, `""` when missing; no other key changes |
| EmployeeRegister.SubmitParts | frontend/app/employees/register/page.tsx:255-282 | the body always has an `"employee"` part holding the draft as `employee.json`, then a `"file"` part exactly when a file is selected |
| EmployeeRegister.RegisterPage.constructor | frontend/app/employees/register/page.tsx:91-118 | the initial draft, no file or preview, and an upload reset dispatched on mount |
| EmployeeRegister.RegisterPage.Change | frontend/app/employees/register/page.tsx:169-172 | the draft takes the key-wise update; the file, the dispatched actions and `submitted` are kept, and the toast, the preview and the image flag stay as they were |
| EmployeeRegister.RegisterPage.ChangePhone | frontend/app/employees/register/page.tsx:174-184 | the draft takes the phone update; the file, the dispatched actions and `submitted` are kept, and the toast, the preview and the image flag stay as they were |
| EmployeeRegister.RegisterPage.ChangePrefix | frontend/app/employees/register/page.tsx:186-195 | the draft takes the prefix update; the file, the dispatched actions and `submitted` are kept, and the toast, the preview and the image flag stay as they were |
| EmployeeRegister.RegisterPage.PickAddress | frontend/app/employees/register/page.tsx:231-251 | the draft takes the picked address; the file, the dispatched actions and `submitted` are kept, and the toast, the preview and the image flag stay as they were |
| EmployeeRegister.RegisterPage.ChooseFile | frontend/app/employees/register/page.tsx:199-220 | remembers the file; it is an image exactly when its type starts with `image/`, and only an image gets a preview; the draft, the toast, the dispatched actions and `submitted` are kept |
| EmployeeRegister.RegisterPage.UploadImage | frontend/app/employees/register/page.tsx:224-227 | dispatches the upload request for the chosen file only when a file is chosen and no upload is running; nothing else changes |
| EmployeeRegister.RegisterPage.UploadUrlChanged | frontend/app/employees/register/page.tsx:138-145 | the draft takes the uploaded url; the file, the dispatched actions and `submitted` are kept, and the toast, the preview and the image flag stay as they were |
| EmployeeRegister.RegisterPage.Submit | frontend/app/employees/register/page.tsx:255-282 | dispatches the create request with the submit body and marks the page as submitted, keeping the draft, the file, the toast, the preview and the image flag |
| EmployeeRegister.RegisterPage.Settle | frontend/app/employees/register/page.tsx:122-134 | nothing changes before a submission settles; once settled `submitted` is cleared, an error-free settle opens the toast and resets the draft, the file and the preview, and a failed one keeps every other field |
| EmployeeDetail.NormalizeImageUrl | frontend/components/employee/detail/EmployeeDetail.tsx:22-25 | nothing for a missing or empty url; otherwise the url with its first `http://minio:9000` replaced by `http://localhost:9000`, unchanged when that text is absent |
| EmployeeDetail.InternalUrlMovesToPublicHost | frontend/components/employee/detail/EmployeeDetail.tsx:22-25 | a url on the internal host keeps its path and moves to the public host |
| EmployeeDetail.DisplayEmail | frontend/components/employee/detail/EmployeeDetail.tsx:34-37 | the non-empty address parts joined by `@` when either is non-empty, else the stored email |
| EmployeeDetail.DisplayPhone | frontend/components/employee/detail/EmployeeDetail.tsx:39-42 | the non-empty phone parts joined by `-` (never empty) when any is non-empty, else the stored phone; all three give prefix-middle-last |
| EmployeeDetail.DisplayAddress | frontend/components/employee/detail/EmployeeDetail.tsx:44-46 | the non-empty address lines joined by one space |
| EmployeeDetail.RenderValue | frontend/components/employee/detail/EmployeeDetail.tsx:48-64 | the value when it is present and non-empty, else `"-"`; never blank |
| EmployeeEditForm.FromEmployee | frontend/components/employee/detail/EmployeeEditForm.tsx:30-46 | every draft key is the employee's value, or `""` when it is missing |
| EmployeeEditForm.FromEmployeeIgnoresOmittedKeys | frontend/components/employee/detail/EmployeeEditForm.tsx:18 | the draft leaves out id, email, phone and the timestamps: employees that differ only there seed the same draft |
| EmployeeEditForm.EditForm.constructor | frontend/components/employee/detail/EmployeeEditForm.tsx:30-51 | the seeded draft, no file, and an upload reset dispatched on mount |
| EmployeeEditForm.EditForm.FieldChange | frontend/components/employee/detail/EmployeeEditForm.tsx:65-69 | the draft takes the key-wise update and nothing else changes |
| EmployeeEditForm.EditForm.FileChange | frontend/components/employee/detail/EmployeeEditForm.tsx:71-75 | remembers the picked file (or null) and dispatches nothing |
| EmployeeEditForm.EditForm.UploadImage | frontend/components/employee/detail/EmployeeEditForm.tsx:77-84 | dispatches the upload request only when a file is chosen and no upload is running |
| EmployeeEditForm.EditForm.UploadUrlChanged | frontend/components/employee/detail/EmployeeEditForm.tsx:53-57 | the draft takes the uploaded url |
| EmployeeEditForm.EditForm.Save | frontend/components/employee/detail/EmployeeEditForm.tsx:86-88 | hands over the draft exactly as it stands |
| MedicalStaffFormModal.Merge | frontend/components/medical-staff/form-modal/MedicalStaffFormModal.tsx:68-77 | `{ ...defaultValues, ...initialValues, profileImageFile: null }`: each key the initial value when present, else the default; the file forced to null |
| MedicalStaffFormModal.Defaults | frontend/components/medical-staff/form-modal/MedicalStaffFormModal.tsx:43-55 | `defaultValues`: every text key empty but the status `ACTIVE`, both selects null, no file |
| MedicalStaffFormModal.Opened | frontend/components/medical-staff/form-modal/MedicalStaffFormModal.tsx:68-77 | opening with values merges them, opening without gives the defaults; no file either way |
| MedicalStaffFormModal.SetText | frontend/components/medical-staff/form-modal/MedicalStaffFormModal.tsx:85-87 | `handleChange` on a text key: that key takes the value, every other key is kept |
| MedicalStaffFormModal.SetId | frontend/components/medical-staff/form-modal/MedicalStaffFormModal.tsx:233-258 | an id select: that select takes the choice, every other key is kept |
| MedicalStaffFormModal.SubmitDecision | frontend/components/medical-staff/form-modal/MedicalStaffFormModal.tsx:96-100 | submits exactly when staff id and name are not blank after trimming and a chosen image is confirmed, and then submits the form unchanged |
| MedicalStaffFormModal.ChosenFileNeedsConfirmation | frontend/components/medical-staff/form-modal/MedicalStaffFormModal.tsx:96-100 | with a file chosen and not confirmed nothing is submitted |
| MedicalStaffFormModal.OpenedNeedsOnlyText | frontend/components/medical-staff/form-modal/MedicalStaffFormModal.tsx:68-100 | right after opening, submission depends only on staff id and name |
| MedicalStaffFormModal.Dialog.constructor | frontend/components/medical-staff/form-modal/MedicalStaffFormModal.tsx:65-67 | defaults, no preview, not confirmed |
| MedicalStaffFormModal.Dialog.Open | frontend/components/medical-staff/form-modal/MedicalStaffFormModal.tsx:68-77 | the form becomes the opened values, the preview and the confirmation are cleared |
| MedicalStaffFormModal.Dialog.ChangeText | frontend/components/medical-staff/form-modal/MedicalStaffFormModal.tsx:85-87 | the form takes the text update |
| MedicalStaffFormModal.Dialog.SelectId | frontend/components/medical-staff/form-modal/MedicalStaffFormModal.tsx:233-258 | the empty choice stores null, any other the parsed number |
| MedicalStaffFormModal.Dialog.ChangeFile | frontend/components/medical-staff/form-modal/MedicalStaffFormModal.tsx:88-95 | stores the file, clears the confirmation, and previews a chosen file at its object url |
| MedicalStaffFormModal.Dialog.Confirm | frontend/components/medical-staff/form-modal/MedicalStaffFormModal.tsx:150-158 | the confirmation follows the checkbox |
| MedicalStaffFormModal.Dialog.Submit | frontend/components/medical-staff/form-modal/MedicalStaffFormModal.tsx:96-100 | returns the submit decision for the form and the confirmation |
| DepartmentFormModal.Merge | frontend/components/department/form-modal/DepartmentFormModal.tsx:47-53 | `{ ...defaultValues, ...initialValues }`: each key the initial value when present, else the default |
| DepartmentFormModal.Defaults | frontend/components/department/form-modal/DepartmentFormModal.tsx:30-38 | `defaultValues`: every text key empty but the status `ACTIVE`, no head |
| DepartmentFormModal.Opened | frontend/components/department/form-modal/DepartmentFormModal.tsx:47-56 | opening with values merges them, opening without gives the defaults |
| DepartmentFormModal.MergeKeepsCompleteValues | frontend/components/department/form-modal/DepartmentFormModal.tsx:47-53 | values that set every key come through the merge unchanged |
| DepartmentFormModal.SetText | frontend/components/department/form-modal/DepartmentFormModal.tsx:57-59 | that key takes the value, every other key is kept |
| DepartmentFormModal.SetHead | frontend/components/department/form-modal/DepartmentFormModal.tsx:115-121 | the head-staff id is null exactly for the empty input and `Number(raw)` otherwise; the text keys are kept |
| DepartmentFormModal.SubmitDecision | frontend/components/department/form-modal/DepartmentFormModal.tsx:60-63 | submits exactly when the name is not blank after trimming, and submits the form unchanged |
| PositionFormModal.Merge | frontend/components/position/form-modal/PositionFormModal.tsx:42-45 | `{ ...defaultValues, ...initialValues }`: each key the initial value when present, else the default |
| PositionFormModal.Defaults | frontend/components/position/form-modal/PositionFormModal.tsx:27-33 | `defaultValues`: every text key empty but the status `ACTIVE`, no rank level |
| PositionFormModal.Opened | frontend/components/position/form-modal/PositionFormModal.tsx:42-48 | opening with values merges them, opening without gives the defaults |
| PositionFormModal.MergeKeepsCompleteValues | frontend/components/position/form-modal/PositionFormModal.tsx:42-45 | values that set every key come through the merge unchanged |
| PositionFormModal.SetText | frontend/components/position/form-modal/PositionFormModal.tsx:49-51 | that key takes the value, every other key is kept |
| PositionFormModal.SetRank | frontend/components/position/form-modal/PositionFormModal.tsx:83-89 | the rank level is null exactly for the empty input and `Number(raw)` otherwise; the text keys are kept |
| PositionFormModal.SubmitDecision | frontend/components/position/form-modal/PositionFormModal.tsx:52-55 | submits exactly when the name is not blank after trimming, and submits the form unchanged |
| MedicalStaffSlice.ReduceAllOne | frontend/entities/medical-staff/model/medicalStaffSlice.ts:180-203 | reducing a one-action sequence is reducing that action |
| MedicalStaffSlice.Initial | frontend/entities/medical-staff/model/medicalStaffSlice.ts:43-51 | `initialState`: no items, not loading, no error, and the empty unsuccessful envelope as `apiresponse`; no upload url, not uploading, no upload error |
| MedicalStaffSlice.ReduceCrud | frontend/entities/medical-staff/model/medicalStaffSlice.ts:55-179 | the case reducers: loading exactly after a request, items kept by requests and failures, `apiresponse` never written |
| MedicalStaffSlice.Reduce | frontend/entities/medical-staff/model/medicalStaffSlice.ts:180-203 | the slice reducer never writes the image-upload fields |
| MedicalStaffSlice.ReduceAllTwo | frontend/entities/medical-staff/model/medicalStaffSlice.ts:180-203 | reducing two actions is reducing them one after the other |
| MedicalStaffSlice.RequestStartsLoading | frontend/entities/medical-staff/model/medicalStaffSlice.ts:55-58 | every request reducer sets loading, clears the error and leaves the items |
| MedicalStaffSlice.FailureRecordsMessage | frontend/entities/medical-staff/model/medicalStaffSlice.ts:66-72 | every failure reducer stops loading and stores its message, leaving the items |
| MedicalStaffSlice.SuccessKeepsError | frontend/entities/medical-staff/model/medicalStaffSlice.ts:59-65 | every success reducer stops loading and leaves the error as it was |
| MedicalStaffSlice.FetchSuccessReplacesItems | frontend/entities/medical-staff/model/medicalStaffSlice.ts:59-86 | fetch and by-condition success make the payload the list; detail success makes it `[payload]` |
| MedicalStaffSlice.CreateSuccessAppends | frontend/entities/medical-staff/model/medicalStaffSlice.ts:101-107 | create success appends the payload after the old items |
| MedicalStaffSlice.UpdateSuccessReplacesById | frontend/entities/medical-staff/model/medicalStaffSlice.ts:122-130 | update success keeps the length, puts the payload at every matching id and keeps the rest |
| MedicalStaffSlice.DeleteSuccessRemovesById | frontend/entities/medical-staff/model/medicalStaffSlice.ts:145-151 | delete success leaves the by-id filter of the old list: no item with the id, every other item kept in order, none added |
| MedicalStaffSlice.UploadFieldsNeverChange | frontend/entities/medical-staff/model/medicalStaffSlice.ts:43-51 | no sequence of actions writes the upload fields or `apiresponse` |
| MedicalStaffSlice.MedicalStaffStore.constructor | frontend/entities/medical-staff/model/medicalStaffSlice.ts:43-51 | the store starts in `initialState` |
| MedicalStaffSlice.MedicalStaffStore.Dispatch | frontend/entities/medical-staff/model/medicalStaffSlice.ts:180-203 | dispatching moves the store to the reducer's next state, writing only the shared fields |
| MedicalStaffSaga.FetchMedicalStaffWorker | frontend/entities/medical-staff/model/medicalStaffSaga.ts:40-51 | calls the fetch api and puts one success action when accepted, else one failure with the message or the thrown value's message |
| MedicalStaffSaga.FetchMedicalStaffDetailWorker | frontend/entities/medical-staff/model/medicalStaffSaga.ts:52-66 | calls the detail api with the id and puts one success or failure action |
| MedicalStaffSaga.Created | frontend/entities/medical-staff/model/medicalStaffSaga.ts:71 | `res?.data?.success && res?.data?.result`: a thrown call, missing data, `success` false or a missing result never count as created |
| MedicalStaffSaga.CreateMessage | frontend/entities/medical-staff/model/medicalStaffSaga.ts:76-79 | the response's message when it is non-empty, else `"Create failed"`; never empty |
| MedicalStaffSaga.CreateMedicalStaffWorker | frontend/entities/medical-staff/model/medicalStaffSaga.ts:67-84 | on `res.data` success with a result, puts create-success and then a fetch request, in that order; otherwise one failure with the message or the fallback |
| MedicalStaffSaga.UpdateMedicalStaffWorker | frontend/entities/medical-staff/model/medicalStaffSaga.ts:85-102 | calls the update api with the id and data unchanged and puts one success or failure action |
| MedicalStaffSaga.DeleteMedicalStaffWorker | frontend/entities/medical-staff/model/medicalStaffSaga.ts:103-117 | calls the delete api; success carries the requested id when `success` holds |
| MedicalStaffSaga.FetchMedicalStaffByConditionWorker | frontend/entities/medical-staff/model/medicalStaffSaga.ts:118-134 | calls the search api with the condition and puts one success or failure action |
| MedicalStaffSaga.CreateFallsBackToFixedMessage | frontend/entities/medical-staff/model/medicalStaffSaga.ts:76-79 | a create answered without data or without a non-empty message fails with `"Create failed"` |
| MedicalStaffSaga.CreateSettles | frontend/entities/medical-staff/model/medicalStaffSaga.ts:67-84 | an accepted create leaves the member appended and the store loading again with no error; a rejected one leaves the old list, not loading, and the message |
| MedicalStaffSaga.CreateThenRefetch | frontend/entities/medical-staff/model/medicalStaffSaga.ts:71-75 | after an accepted create, the chained fetch settles to the server's list, or keeps the appended list with the fetch's message |
| MedicalStaffSaga.FetchSettles | frontend/entities/medical-staff/model/medicalStaffSaga.ts:40-51 | a fetch settles not loading, with the fetched list and no error, or the old list and the message |
| MedicalStaffSaga.FetchByConditionSettles | frontend/entities/medical-staff/model/medicalStaffSaga.ts:118-134 | a search settles like a fetch |
| MedicalStaffSaga.DetailSettles | frontend/entities/medical-staff/model/medicalStaffSaga.ts:52-66 | a detail fetch settles with `[result]` or the old list and the message |
| MedicalStaffSaga.UpdateSettles | frontend/entities/medical-staff/model/medicalStaffSaga.ts:85-102 | an update settles with the result replacing its id or the old list and the message |
| MedicalStaffSaga.DeleteSettles | frontend/entities/medical-staff/model/medicalStaffSaga.ts:103-117 | a delete settles with the id removed or the old list and the message |
| DepartmentSlice.ReduceAllOne | frontend/entities/department/model/departmentSlice.ts:114-131 | reducing a one-action sequence is reducing that action |
| DepartmentSlice.Initial | frontend/entities/department/model/departmentSlice.ts:25-30 | `initialState`: no items, not loading, no error, and the empty unsuccessful envelope as `apiresponse` |
| DepartmentSlice.Reduce | frontend/entities/department/model/departmentSlice.ts:31-131 | the slice reducer: loading exactly after a request, items kept by requests and failures, `apiresponse` never written |
| DepartmentSlice.RequestStartsLoading | frontend/entities/department/model/departmentSlice.ts:31-34 | every request reducer sets loading, clears the error and leaves the items |
| DepartmentSlice.FailureRecordsMessage | frontend/entities/department/model/departmentSlice.ts:42-48 | every failure reducer stops loading and stores its message, leaving the items |
| DepartmentSlice.SuccessKeepsError | frontend/entities/department/model/departmentSlice.ts:35-41 | every success reducer stops loading and leaves the error as it was |
| DepartmentSlice.FetchSuccessReplacesItems | frontend/entities/department/model/departmentSlice.ts:35-41 | fetch success makes the payload the list |
| DepartmentSlice.CreateSuccessAppends | frontend/entities/department/model/departmentSlice.ts:56-62 | create success appends the payload after the old items |
| DepartmentSlice.UpdateSuccessReplacesById | frontend/entities/department/model/departmentSlice.ts:77-85 | update success keeps the length, replaces the matching ids only, and changes nothing when the id is absent |
| DepartmentSlice.DeleteSuccessRemovesById | frontend/entities/department/model/departmentSlice.ts:100-106 | delete success leaves the by-id filter of the old list: no item with the id, every other item kept in order, none added |
| DepartmentSlice.ApiResponseNeverChanges | frontend/entities/department/model/departmentSlice.ts:25-30 | no sequence of actions changes `apiresponse` |
| DepartmentSlice.DepartmentStore.constructor | frontend/entities/department/model/departmentSlice.ts:25-30 | the store starts in `initialState` |
| DepartmentSlice.DepartmentStore.Dispatch | frontend/entities/department/model/departmentSlice.ts:114-131 | dispatching moves the store to the reducer's next state |
| DepartmentSaga.FetchDepartmentsWorker | frontend/entities/department/model/departmentSaga.ts:29-40 | calls the fetch api and puts one success action when accepted, else one failure with the message or the thrown value's message |
| DepartmentSaga.CreateDepartmentWorker | frontend/entities/department/model/departmentSaga.ts:41-55 | calls the create api with the input and puts one success or failure action |
| DepartmentSaga.UpdateDepartmentWorker | frontend/entities/department/model/departmentSaga.ts:56-73 | calls the update api with the payload's id and data and puts one success or failure action |
| DepartmentSaga.DeleteDepartmentWorker | frontend/entities/department/model/departmentSaga.ts:74-88 | calls the delete api; success with the requested id exactly when `success` holds |
| DepartmentSaga.FetchSettles | frontend/entities/department/model/departmentSaga.ts:29-40 | a fetch settles not loading, with the list and no error, or the old list and the message |
| DepartmentSaga.CreateSettles | frontend/entities/department/model/departmentSaga.ts:41-55 | a create settles with the result appended, or the old list and the message |
| DepartmentSaga.UpdateSettles | frontend/entities/department/model/departmentSaga.ts:56-73 | an update settles with the result replacing its id, or the old list and the message |
| DepartmentSaga.DeleteSettles | frontend/entities/department/model/departmentSaga.ts:74-88 | a delete settles with the id removed, or the old list and the message |
| PositionSlice.ReduceAllOne | frontend/entities/position/model/positionSlice.ts:112-129 | reducing a one-action sequence is reducing that action |
| PositionSlice.Initial | frontend/entities/position/model/positionSlice.ts:23-28 | `initialState`: no items, not loading, no error, and the empty unsuccessful envelope as `apiresponse` |
| PositionSlice.Reduce | frontend/entities/position/model/positionSlice.ts:29-129 | the slice reducer: loading exactly after a request, items kept by requests and failures, `apiresponse` never written |
| PositionSlice.RequestStartsLoading | frontend/entities/position/model/positionSlice.ts:29-32 | every request reducer sets loading, clears the error and leaves the items |
| PositionSlice.FailureRecordsMessage | frontend/entities/position/model/positionSlice.ts:40-46 | every failure reducer stops loading and stores its message, leaving the items |
| PositionSlice.SuccessKeepsError | frontend/entities/position/model/positionSlice.ts:33-39 | every success reducer stops loading and leaves the error as it was |
| PositionSlice.FetchSuccessReplacesItems | frontend/entities/position/model/positionSlice.ts:33-39 | fetch success makes the payload the list |
| PositionSlice.CreateSuccessAppends | frontend/entities/position/model/positionSlice.ts:54-60 | create success appends the payload after the old items |
| PositionSlice.UpdateSuccessReplacesById | frontend/entities/position/model/positionSlice.ts:75-83 | update success keeps the length, replaces the matching ids and keeps the others in place |
| PositionSlice.DeleteSuccessRemovesById | frontend/entities/position/model/positionSlice.ts:98-104 | delete success leaves the by-id filter of the old list: no item with the id, every other item kept in order, none added |
| PositionSlice.ApiResponseNeverChanges | frontend/entities/position/model/positionSlice.ts:23-28 | no sequence of actions changes `apiresponse` |
| PositionSlice.PositionStore.constructor | frontend/entities/position/model/positionSlice.ts:23-28 | the store starts in `initialState` |
| PositionSlice.PositionStore.Dispatch | frontend/entities/position/model/positionSlice.ts:112-129 | dispatching moves the store to the reducer's next state |
| PositionSaga.FetchPositionsWorker | frontend/entities/position/model/positionSaga.ts:29-40 | calls the fetch api and puts one success action when accepted, else one failure with the message or the thrown value's message |
| PositionSaga.CreatePositionWorker | frontend/entities/position/model/positionSaga.ts:41-55 | calls the create api with the input and puts one success or failure action |
| PositionSaga.UpdatePositionWorker | frontend/entities/position/model/positionSaga.ts:56-73 | calls the update api with the payload's id and data and puts one success or failure action |
| PositionSaga.DeletePositionWorker | frontend/entities/position/model/positionSaga.ts:74-88 | calls the delete api; success with the requested id exactly when `success` holds |
| PositionSaga.FetchSettles | frontend/entities/position/model/positionSaga.ts:29-40 | a fetch settles not loading, with the list and no error, or the old list and the message |
| PositionSaga.CreateSettles | frontend/entities/position/model/positionSaga.ts:41-55 | a create settles with the result appended, or the old list and the message |
| PositionSaga.UpdateSettles | frontend/entities/position/model/positionSaga.ts:56-73 | an update settles with the result replacing its id, or the old list and the message |
| PositionSaga.DeleteSettles | frontend/entities/position/model/positionSaga.ts:74-88 | a delete settles with the id removed, or the old list and the message |
| MedicalStaffPage.IdOrAbsent | frontend/app/medical-staff/page.tsx:27-28 | `?? undefined`: a present id only for a present, non-null selection, and then that id |
| MedicalStaffPage.ToInput | frontend/app/medical-staff/page.tsx:19-31 | copies the listed text fields, drops `id`, turns null or absent selections into absent ids, and makes the file null unless one was chosen |
| MedicalStaffPage.WithoutFile | frontend/app/medical-staff/page.tsx:49 | the rest pattern: every field of the values except `profileImageFile`, unchanged |
| MedicalStaffPage.WithoutFileDropsOnlyTheFile | frontend/app/medical-staff/page.tsx:49 | two values give the same `"staff"` payload exactly when they differ at most in the file |
| MedicalStaffPage.CreateParts | frontend/app/medical-staff/page.tsx:47-71 | the body has a `"staff"` part holding the values without the file, then a `"file"` part exactly when a file is present |
| MedicalStaffPage.DepartmentOptions | frontend/app/medical-staff/page.tsx:83 | the departments projected to id and name, same length and order |
| MedicalStaffPage.PositionOptions | frontend/app/medical-staff/page.tsx:84 | the positions projected to id and name, same length and order |
| MedicalStaffPage.MountActions | frontend/app/medical-staff/page.tsx:39-45 | the mount effect dispatches the medical-staff, department and position fetches, in that order |
| MedicalStaffPage.MountStartsLoading | frontend/app/medical-staff/page.tsx:39-45 | the mount's three fetches leave each of the three slices loading, without error, with its list untouched |
| MedicalStaffPage.Page.constructor | frontend/app/medical-staff/page.tsx:39-45 | the mount dispatches fetch for staff, departments and positions, in that order |
| MedicalStaffPage.Page.HandleCreate | frontend/app/medical-staff/page.tsx:47-71 | appends the file part only when a file is present and dispatches the create request with that body |
| MedicalStaffPage.Page.HandleUpdate | frontend/app/medical-staff/page.tsx:73-75 | dispatches the update request with the id and the mapped input |
| MedicalStaffPage.Page.HandleDelete | frontend/app/medical-staff/page.tsx:77-79 | dispatches the delete request with the id |
| MedicalStaffPage.Page.Search | frontend/app/medical-staff/page.tsx:86-88 | dispatches the search request with the condition and value passed through |
| AppShell.NavGroups | frontend/widgets/app-shell/ui/AppShell.tsx:39-74 | `NAV_GROUPS`: the employees group then the medical-staff group, two links each, the first of each being its list page |
| AppShell.ActiveTopMenu | frontend/widgets/app-shell/ui/AppShell.tsx:101-103 | `"staff"` exactly when the path starts with `/medical-staff`, `"employees"` exactly otherwise |
| AppShell.FilteredGroups | frontend/widgets/app-shell/ui/AppShell.tsx:128 | a group is shown exactly when it is a navigation group whose key is the active menu; a one-group list passes exactly when its key is the active one |
| AppShell.FilteredGroupsDistributes | frontend/widgets/app-shell/ui/AppShell.tsx:128 | the filter distributes over concatenation, so the shown groups keep their order and multiplicity |
| AppShell.OneGroupPerPath | frontend/widgets/app-shell/ui/AppShell.tsx:39-128 | for every path exactly one group is shown, the active menu's |
| AppShell.ResetOpenGroups | frontend/widgets/app-shell/ui/AppShell.tsx:105-107 | only the active menu's group is open, and it is the only key |
| AppShell.ToggleGroup | frontend/widgets/app-shell/ui/AppShell.tsx:109-111 | the toggled group flips (an absent key opens), every other key keeps its entry |
| AppShell.ToggleGroupTwice | frontend/widgets/app-shell/ui/AppShell.tsx:109-111 | toggling a group twice restores which groups are open |
| AppShell.SavedCollapsed | frontend/widgets/app-shell/ui/AppShell.tsx:95 | the mount reads the sidebar as collapsed only from a stored "1" (what a collapsed toggle writes), and never without a stored entry |
| AppShell.StoredValue | frontend/widgets/app-shell/ui/AppShell.tsx:117-120 | the stored setting is `"1"` or `"0"` |
| AppShell.StoredValueReadsBack | frontend/widgets/app-shell/ui/AppShell.tsx:94-120 | the value written when toggling reads back on mount as the same setting |
| AppShell.EffectiveCollapsed | frontend/widgets/app-shell/ui/AppShell.tsx:133 | small screens always collapse; larger ones follow the setting |
| AppShell.Shell.constructor | frontend/widgets/app-shell/ui/AppShell.tsx:87-89 | not mounted, no open groups, not collapsed |
| AppShell.Shell.Mount | frontend/widgets/app-shell/ui/AppShell.tsx:91-99 | marks mounted and collapses when the stored entry is exactly `"1"` |
| AppShell.Shell.ActiveTopMenuChanged | frontend/widgets/app-shell/ui/AppShell.tsx:105-107 | the open groups become the reset for the new active menu |
| AppShell.Shell.Toggle | frontend/widgets/app-shell/ui/AppShell.tsx:109-111 | the open groups take the toggle |
| AppShell.Shell.ToggleSidebarCollapsed | frontend/widgets/app-shell/ui/AppShell.tsx:113-126 | flips the setting and stores `"1"` or `"0"`, which reads back as the new setting |
| AppShell.Shell.Render | frontend/widgets/app-shell/ui/AppShell.tsx:128-135 | nothing before mounting; then the active menu, its group and the effective setting |

## Left out

- **Concurrency.** `takeLatest` cancels a worker when a newer request of
  the same kind arrives; the root saga forks the entity sagas. Workers are
  modelled one outcome at a time.
- **HTTP clients.** The axios calls, base URLs and URL templates are
  replaced by the `ApiCall` value each worker makes and by the `Outcome`
  it is given. `handleResponse` drops `result` from a failed envelope;
  the model takes any envelope the call may return.
- **`EmployeesSaga.CreateEmployeeWorker`.** The employee create api
  returns the raw HTTP response, yet the worker reads `success`,
  `message` and `result` from it as if it were an envelope. The model
  keeps that outcome abstract and states nothing about what the real
  response holds.
- **`MedicalStaffSaga.FetchMedicalStaffByConditionWorker`.** The
  medical-staff search api is typed to return one record or a list. The
  reducer stores the payload as the list, and the model takes a list.
- **`EmployeesSaga.FetchEmployeesByConditionWorker`.** The employee search
  api is typed the same way, one record or a list. The worker and the
  `FetchEmployeesByConditionSuccess` action of `EmployeesSlice` take only
  a list, so a single record stored as the list is not modelled. The list
  page guards that case with `Array.isArray`; `EmployeesPage.SortedItems`
  gives `[]` for `None`, which stands for any store value that is not an
  array.
- **Browser APIs.** The following are left out:
  - `URL.createObjectURL` is a parameter (`objectUrl`);
  - `URL.revokeObjectURL`, `alert` and `window.confirm`;
  - the Daum postcode script loading.
  - Browser storage is the field `Shell.stored`, and errors from writing
    it, which the shell ignores, are not modelled.
- **`Number(...)` parsing.** This applies to the numeric inputs. It is a
  parameter `parse` from strings to integers: `""` stores null and any
  other input stores `parse(raw)`. Fractions and `NaN` are not
  modelled.
- **Encoding.** `JSON.stringify`, `Blob` and `FormData` encoding are not
  modelled: a body is the list of its named parts.
- **`Text.LexLess`.** It compares Dafny characters (code points).
  JavaScript compares UTF-16 code units, and the two orders differ only
  above U+FFFF.
- **`EmployeesPage.SortedItems`.** It sorts with an insertion sort and
  proves a sorted permutation. The engine's `Array.prototype.sort`
  algorithm, and which of several equal-keyed items comes first, are not
  modelled.
- **`EmployeeRegister.PhoneChange`.** It reads the current prefix from
  the draft it updates. The page's handler reads it from the render in
  which the handler was created; the two agree whenever the page has
  re-rendered since the last prefix change.
- **`MedicalStaffFormModal.Merge`, `DepartmentFormModal.Merge` and
  `PositionFormModal.Merge`.** A key in the initial values is either
  present with a value or absent. An explicitly `undefined` key, which
  the spread would copy over the default, is treated as absent.
- **`apiresponse`.** In every slice this field is declared, and kept only
  as the constant initial envelope, since no reducer writes it.
- **The medical-staff update payload.** It is the object
  `toMedicalStaffInput` builds (staff id, name, dates, ids, file). Its
  declared TypeScript type lists other keys, and the type is not
  modelled.
- **Console logging.** Calls to `console.log` are not modelled.
- **Presentation and configuration.** Rendering, styling and the store
  configuration are not modelled.
- **The Java backend.** It is not part of this model.
