# Patient management client — a Dafny model

This project models the browser client of the patient management system.
`PatientProvider` holds the list of patient records and adds, edits and
fetches them over a REST API. `AppContent` drives the selection, the form
modal, the loading overlay and the toast. `PatientForm` edits a record,
lets the user add custom fields and validates before submitting.
`PatientList` filters the records by name and pages through them six at a
time. `PatientCard` shows a record's details and shortens long values.

Modules, one per source file, plus two shared ones:

- `Records`: a JavaScript object with string values. It keeps its keys in
  insertion order (the order `Object.keys` reports) next to a key→value map.
  It provides property assignment `{ ...r, [k]: v }` (`Put`) and the spread
  `{ ...a, ...b }` (`Merge`).
- `Text`: the string functions the client calls (`trim`, `toLowerCase`,
  `includes`, the "capitalise the key" idiom), over ASCII.
- `Context` (src/context/PatientContext.tsx): the store as a class with a
  `patients` field. Each HTTP request becomes an outcome value the caller
  supplies.
- `Form` (src/components/PatientForm.tsx): the validation rule as a
  specification function, `validateForm` as a method with loops proved
  against it, and the component as a class.
- `List` (src/components/PatientList.tsx): filter, slice, counter arithmetic
  and button visibility.
- `Card` (src/components/PatientCard.tsx): value shortening, which rows the
  details panel shows, and the two expand flags with their effect.
- `App` (src/App.tsx): the submit flow and its toast, plus two whole
  scenarios (edit after a fetch, add after a failed fetch).

Where the description of the system and the code differ, the model follows
the code:

- The store catches and logs every request error. The promises returned by
  `addPatient` and `editPatient` therefore always resolve.
- As a result, `handleFormSubmit` always shows the success toast, and its
  "Failed to save patient data." branch cannot be reached. `AppContent.HandleFormSubmit`,
  `App.EditFlow` and `App.AddFlow` state this.
- In create mode the fixed checks do not trim, so a name of spaces passes.
  In edit mode the capitalised-key message replaces the fixed one, so a
  blank id reads "Id is required".
- "Show Less" drops the counter to 10, below the initial 12.

Two preconditions come from the code rather than from the model:

- The filter calls `patient.name.toLowerCase()`, so every patient must have
  a `name` (`List.AllNamed`).
- Edit-mode validation calls `formData[key].trim()` for every key of
  `initialData`, so those keys must stay in `formData` (`Form.Covers`). The
  form class keeps this as its invariant.

## Model

| member | source | states |
|---|---|---|
| Text.Trim | src/components/PatientForm.tsx:42 | defines `s.trim()` as the leading whitespace dropped, then the trailing whitespace dropped; its properties are the next four rows |
| Text.TrimStartSpec | src/components/PatientForm.tsx:42 | the start of `trim` removes exactly a whitespace prefix and stops at the first non-space character |
| Text.TrimEndSpec | src/components/PatientForm.tsx:42 | the end of `trim` removes exactly a whitespace suffix and stops at the last non-space character |
| Text.BlankIffAllSpace | src/components/PatientForm.tsx:42 | `s.trim() === ''` holds exactly when every character of `s` is whitespace |
| Text.TrimSpec | src/components/PatientForm.tsx:59 | a non-empty trimmed string neither starts nor ends with whitespace, and trimming twice equals trimming once |
| Text.Lower | src/components/PatientList.tsx:21 | `toLowerCase` keeps the length and lower-cases each character in place |
| Text.Capitalise | src/components/PatientForm.tsx:59 | defines `key.charAt(0).toUpperCase() + key.slice(1)`: the empty key stays empty, otherwise the first character is upper-cased; its shape is the next row |
| Text.CapitaliseShape | src/components/PatientForm.tsx:59 | `key.charAt(0).toUpperCase() + key.slice(1)` has the key's length, an upper-cased first character and the other characters unchanged; the empty key stays empty |
| Text.Contains | src/components/PatientList.tsx:21 | defines `s.includes(sub)`: `sub` is a prefix of `s` or of some suffix of it; the next row gives the positional reading |
| Text.ContainsIff | src/components/PatientList.tsx:21 | `includes` holds exactly when the query occurs at some position |
| Text.ContainsEmpty | src/components/PatientList.tsx:21 | every string includes the empty query |
| Records.Lookup | src/components/PatientForm.tsx:59 | defines `m[k]` on a key→value map, `None` for `undefined` |
| Records.Get | src/context/PatientContext.tsx:52 | defines `r[k]` on a record, `None` for `undefined` |
| Records.Put | src/components/PatientForm.tsx:25-28 | `{ ...r, [k]: v }` reads `v` at `k` and the old value elsewhere; an existing key keeps its place and a new key goes last |
| Records.PutAll | src/components/PatientForm.tsx:80 | spreading a list of keys reads the spread value on those keys and the old value elsewhere, with the earlier keys kept first |
| Records.PutAllValues | src/components/PatientForm.tsx:80 | spreading all of `b` over `a` gives the right-biased union of their values |
| Records.Merge | src/components/PatientForm.tsx:80 | `{ ...a, ...b }` holds `a`'s values overridden by `b`'s, with `a`'s keys first and in their order |
| Records.MergeGet | src/components/PatientForm.tsx:80 | after the merge a key of `b` reads `b`'s value and any other key reads `a`'s |
| Records.MergeEmpty | src/components/PatientForm.tsx:80 | merging with `{}` on either side keeps the values |
| Context.SameId | src/context/PatientContext.tsx:52 | defines `patient.id === updatedPatient.id`; two records without an id compare equal |
| Context.ReplacedById | src/context/PatientContext.tsx:50-54 | the mapped list has the same length, and each element is the updated patient when its id equals the updated id, otherwise unchanged |
| Context.ReplaceMissingId | src/context/PatientContext.tsx:50-54 | an edit whose id no element carries leaves the list unchanged |
| Context.ReplaceEffect | src/context/PatientContext.tsx:50-54 | after an edit, matching elements are the updated patient and the others are unchanged; repeating the same edit changes nothing |
| Context.PatientProvider.constructor | src/context/PatientContext.tsx:23 | the store starts with no patients |
| Context.PatientProvider.FetchPatients | src/context/PatientContext.tsx:25-36 | a fetched body replaces the list; a failed fetch keeps it |
| Context.PatientProvider.AddPatient | src/context/PatientContext.tsx:38-45 | on success the record is appended; on failure the list is kept; the promise always resolves |
| Context.PatientProvider.EditPatient | src/context/PatientContext.tsx:47-58 | on success the list is replaced by id; on failure it is kept; the promise always resolves |
| Context.Mount | src/context/PatientContext.tsx:23-36 | a freshly mounted provider holds the fetched body, or nothing when the fetch failed |
| Context.FetchThenAdd | src/context/PatientContext.tsx:38-45 | a successful add keeps every earlier patient at its index and puts the new one last; a failed add keeps the list |
| Form.Validation | src/components/PatientForm.tsx:52-67 | every key's error is, in order of precedence: the additional-field message if that field trims to nothing, else the edit-mode message if that `initialData` field trims to nothing, else the fixed message if that fixed field is falsy; otherwise no error |
| Form.ValidateForm | src/components/PatientForm.tsx:52-67 | the four checks and two loops compute exactly `Validation` |
| Form.FixedMessages | src/components/PatientForm.tsx:54-57 | in create mode each of name, id, website and description gets its fixed message exactly when its value is missing or empty |
| Form.CreateModeAcceptsBlankName | src/components/PatientForm.tsx:54 | in create mode any non-empty name made only of whitespace gets no error (unless an additional field of that name is blank); with id, website and description filled and no additional fields the form has no error at all |
| Form.EditModeOverridesFixedMessage | src/components/PatientForm.tsx:58-65 | in edit mode a blank `initialData` field gets "`Key` is required", replacing any fixed message, whatever the additional fields hold |
| Form.EditModeBlankId | src/components/PatientForm.tsx:55-65 | in edit mode a blank id reads "Id is required", whatever the additional fields hold |
| Form.BlankAdditionalFieldFlagged | src/components/PatientForm.tsx:62-65 | an additional field that trims to nothing gets "`Key` is required" whatever else the form holds |
| Form.BlankFieldBlocksSubmit | src/components/PatientForm.tsx:62-77 | an added custom field left at `''` gets its message and stops the submit |
| Form.SubmitResult | src/components/PatientForm.tsx:75-82 | a record is submitted exactly when there are no errors, and it holds `formData` overridden by the additional fields |
| Form.PatientForm.constructor | src/components/PatientForm.tsx:16-21 | the form starts from `initialData` or the blank id/name/description record, with no extra fields, no errors and the sub-dialog closed and empty |
| Form.PatientForm.HandleInputChange | src/components/PatientForm.tsx:23-29 | sets one key of `formData`, leaves every other key, and keeps the form invariant |
| Form.PatientForm.HandleAdditionalFieldChange | src/components/PatientForm.tsx:31-33 | sets one key of the additional fields |
| Form.PatientForm.HandleAddField | src/components/PatientForm.tsx:35-37 | opens the sub-dialog |
| Form.PatientForm.SetNewFieldName | src/components/PatientForm.tsx:190 | the sub-dialog input sets the new field name |
| Form.PatientForm.CloseFieldModal | src/components/PatientForm.tsx:182 | the sub-dialog's close closes it |
| Form.PatientForm.HandleModalSubmit | src/components/PatientForm.tsx:39-50 | a name that trims to nothing only sets "Field Name is required"; otherwise the untrimmed name is added with `''`, the dialog closes and its name and error clear |
| Form.PatientForm.HandleSubmit | src/components/PatientForm.tsx:69-83 | stores the validation errors and submits the merged record exactly when there are none |
| List.Matches | src/components/PatientList.tsx:21 | defines the filter test: the lower-cased name includes the lower-cased query |
| List.Filtered | src/components/PatientList.tsx:20-22 | the result contains only patients of the list whose lower-cased name includes the lower-cased query, and every such patient |
| List.FilteredAppend | src/components/PatientList.tsx:20-22 | filtering keeps the list's order: filtering a concatenation concatenates the filtered parts |
| List.FilteredEmptyQuery | src/components/PatientList.tsx:20-22 | an empty query keeps every patient |
| List.Shown | src/components/PatientList.tsx:51 | the slice is a prefix with at most `visibleCount` cards, and it is exactly `visibleCount` long unless it is the whole filtered list |
| List.MoreCount | src/components/PatientList.tsx:33 | "Show More" gives the smaller of count + 6 and the total, and moves forward while below the total |
| List.LessCount | src/components/PatientList.tsx:42 | "Show Less" gives the larger of count − 6 and 10 |
| List.MoreLessInverse | src/components/PatientList.tsx:30-46 | away from both bounds, "Show More" and "Show Less" undo each other |
| List.LessUndershootsInitial | src/components/PatientList.tsx:42 | from 15 cards "Show Less" goes to 10, below the initial 12 |
| List.ShowMoreVisible | src/components/PatientList.tsx:65 | defines when "Show More" renders: fewer cards than patients in the unfiltered list |
| List.ShowLessVisible | src/components/PatientList.tsx:73 | defines when "Show Less" renders: more than 12 cards |
| List.ButtonsHidden | src/components/PatientList.tsx:64 | defines when the button container is hidden: there are no patients, or fewer filtered patients than the counter |
| List.ButtonsAfterClick | src/components/PatientList.tsx:65-73 | after a click, "Show More" stays exactly while count + 6 is below the total, and "Show Less" stays exactly when the count was above 18 |
| List.ButtonsShownMeansFullPage | src/components/PatientList.tsx:51-65 | while the buttons are displayed there are exactly `visibleCount` cards, and a visible "Show More" adds cards when more filtered patients remain |
| List.PatientList.constructor | src/components/PatientList.tsx:16-17 | the counter starts at 12 |
| List.PatientList.HandleShowMore | src/components/PatientList.tsx:30-36 | the counter becomes `MoreCount` and never passes the number of patients |
| List.PatientList.HandleShowLess | src/components/PatientList.tsx:38-46 | the counter becomes `LessCount` and never drops below 10 |
| Card.ShortDescription | src/components/PatientCard.tsx:21-26 | values of at most 200 characters and expanded values are shown whole; otherwise the first 200 characters followed by "..." |
| Card.RowKeys | src/components/PatientCard.tsx:61-64 | a key gets a row exactly when it is not avatar, createdAt, website or name and its value is not `''` |
| Card.RowKeysAppend | src/components/PatientCard.tsx:61-64 | rows keep the order of `Object.keys` |
| Card.Rows | src/components/PatientCard.tsx:61-71 | defines the details panel: one row per listed key, with its label, its shortened text and whether a read-more button follows; its properties are the next row |
| Card.RowsSpec | src/components/PatientCard.tsx:61-71 | each row belongs to a listed key, is labelled with the capitalised key, has a read-more button exactly when the value is over 200 characters, and shows the value whole unless it is long and collapsed, in which case it shows the first 200 characters and "..." |
| Card.PatientCard.constructor | src/components/PatientCard.tsx:13-14 | a card starts collapsed with long values shortened |
| Card.PatientCard.ResetEffect | src/components/PatientCard.tsx:28-33 | collapsing resets the long-value flag; the flag can only be on while the card is expanded |
| Card.PatientCard.ToggleExpanded | src/components/PatientCard.tsx:51 | flips the expanded flag; collapsing also clears the long-value flag |
| Card.PatientCard.ToggleDescription | src/components/PatientCard.tsx:17-19 | on an expanded card it flips the long-value flag; on a collapsed card the flag stays off |
| App.NameText | src/App.tsx:35 | defines `${data.name}` in the loading text: the name, or "undefined" when it is missing |
| App.LoadingMessageFor | src/App.tsx:35 | defines the loading text: "Wait while we edit <name> information..." when editing, "Wait while we add <name> as a patient..." otherwise |
| App.AfterSubmit | src/App.tsx:40-46 | defines the list a submit leaves: an edit by id when a patient is selected, an append otherwise, and no change when the request fails |
| App.SubmitNotice | src/App.tsx:39-49 | the toast is an "error" exactly when the store's promise rejects, and on resolution reads the update or add message |
| App.AppContent.constructor | src/App.tsx:17-22 | nothing is selected, open, loading or shown, and the search is empty |
| App.AppContent.HandleAddPatient | src/App.tsx:24-27 | clears the selection and opens the form |
| App.AppContent.HandleEditPatient | src/App.tsx:29-32 | selects the patient and opens the form |
| App.AppContent.HandleFormSubmit | src/App.tsx:34-54 | edits when a patient was selected and adds otherwise; sets the loading text; always shows the success toast; ends closed, not loading and with no selection, keeping the search |
| App.AppContent.HandleCancel | src/App.tsx:56-58 | closes the form |
| App.AppContent.HandleNotificationClose | src/App.tsx:60-62 | removes the toast |
| App.AppContent.SetSearchQuery | src/App.tsx:76 | the search box sets the query |
| App.AppContent.HeaderShown | src/App.tsx:67 | defines when the header with the search box and "Add New Patient" renders: the list is not empty |
| App.EditFlow | src/App.tsx:34-54 | after a fetch, an edit always reports "Patient updated successfully.", the list is replaced by id only on success, and the header shows exactly when the list is non-empty |
| App.AddFlow | src/App.tsx:34-54 | after a failed fetch, an add always reports "Patient added successfully.", the list holds the record only on success, and the header shows exactly then |

## Left out

- HTTP (axios `get`, `post`, `put`): each request is an outcome parameter. The URL, the request body and `console.error` logging are not modelled.
- Asynchrony: each async handler runs to completion in one step. Interleavings of two pending requests, and React's batching of state updates, are not modelled.
- The 300 ms `setTimeout` in "Show More" / "Show Less" becomes one atomic update.
- The `fadeIn` and `buttonsVisible` flags of the list are CSS transition state only. They are left out.
- The card's `maxHeight` DOM effect is left out because it is styling only.
- Rendering is not modelled: themes, the `Loading`, `Modal` and `Notification` components, the toast's own timer, and `useTheme` / `usePatients`. Only the conditions the JSX tests are modelled: the header, the button container and the details rows.
- The submit button's `onClick={validateForm}` throws away its result, so it has no effect beyond the form's `onSubmit`. It is left out.
- Each time the modal opens, `PatientForm` is mounted again. The model constructs a new form from `initialData`. `App.AppContent.HandleFormSubmit` takes the submitted record as a parameter instead of calling the form.
- The additional-field inputs render `formData[fieldName]` as their value while writing to `additionalFields`. Display values are not modelled.
- Field values are strings only. Numbers, `null` or nested objects coming from the API are not modelled.
- `Object.keys` lists integer-like keys first, in numeric order. The model lists every key in insertion order.
- `Text.TrimStartSpec`, `Text.TrimEndSpec`, `Text.Lower`, `Text.CapitaliseShape`: whitespace and case mapping are ASCII only. Unicode whitespace and full case mapping are not modelled, and `charAt` and `slice` act on a Dafny `char`, which is a Unicode scalar value, not a UTF-16 code unit.
- Card.ShortDescription, Card.RowsSpec: lengths and slices count Unicode scalar values, not the UTF-16 code units that JavaScript's `length` and `slice` count. A value with characters outside the Basic Multilingual Plane is measured shorter than in the browser. For example, 150 emoji have length 150 here and 300 in JavaScript, so the model shows them whole with no read-more button, where the browser cuts them.
- Records.Merge: states the values and that `a`'s keys come first. It does not state the order of `b`'s new keys after them.
- Only src/context/PatientContext.tsx, src/components/PatientForm.tsx, src/components/PatientList.tsx, src/components/PatientCard.tsx and src/App.tsx are modelled. The other components, the hooks, the styles and webpack.config.js are not part of this model.
