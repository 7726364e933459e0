# Contact selection flow — a Dafny model

The application lets a user fill three contact slots: a client, a primary
contact and a secondary contact. For each slot the user can search a public
user directory, pick a result, or create or edit a contact in a dialog. The
dialog validates the contact field by field. A summary card shows the chosen
contact and lists the required fields it still lacks. The page keeps the
three slots in the browser's local storage and reports saves in a snackbar.
A final submission posts every slot to a logging endpoint, which appends
each accepted request as one JSON line to a log file.

The model has one module per source file, and a few shared modules for the
values those files exchange:

- `Wrappers`: `Option` and `Result`.
- `Text`: JavaScript's `trim` and its white-space set, plus integer-to-decimal text.
- `JsonValues`: JSON values, property lookup, object spread and `JSON.stringify`.
- `Contacts`: the contact record, the app state and the JSON form of both.
- `Email`: the dialog's e-mail regular expression.
- `ContactModal`: the dialog (`src/components/ContactModal.tsx`).
  - Validation is a function, `ErrorsFor`.
  - The dialog's state is the class `Modal`.
  - The validation itself is a method that builds the error map one check at a time, as the source does.
- `ContactSummaryCard`: the missing-field report, the address line and the avatar letter.
  - The report is built by a loop, proved equal to `Missing`.
- `ContactField`: the picker.
  - Directory results are turned into contacts.
  - Search outcomes become errors.
  - The dialog is opened and saved, and the log body is built.
  - The picker's state is the class `Picker`.
- `PageStorage`: loading the slots from local storage and writing them back.
- `SelectionPage`: the selection page (class `Page`) and its snackbar texts.
- `HomePage`: the start page (class `Home`).
- `LogRoute`: the `POST /api/log` handler.
  - `Respond` is what it answers.
  - The class `LogFile` holds the log text and its `Post` method.
- `Validation`: the contact schema and the log-request schema.
- `Integration`: how these parts agree or disagree:
  - dialog against schema;
  - schema against endpoint;
  - picker and page bodies against endpoint;
  - endpoint replies against the page's snackbar.

The endpoint does not call the log-request schema. It checks only that the
body is an object with a known `action`, so it accepts some requests the
schema rejects (`Integration.RouteIgnoresField`).

## Model

| member | source | states |
|---|---|---|
| Text.TrimStartSpec | src/components/ContactModal.tsx:81 | trimming the front removes exactly the leading white space: the result is a suffix that is empty or starts with a non-space |
| Text.TrimEndSpec | src/components/ContactModal.tsx:81 | trimming the end removes exactly the trailing white space: the result is a prefix that is empty or ends with a non-space |
| Text.TrimSpec | src/components/ContactModal.tsx:81 | `trim` never lengthens a string and leaves no white space at either end |
| Text.BlankIffAllSpace | src/components/ContactModal.tsx:81 | `!s.trim()` holds exactly when every character of `s` is white space |
| Text.BlankTrim | src/components/ContactSummaryCard.tsx:30 | trimming again does not change whether a value is blank |
| Text.BlankConcat | src/components/ContactModal.tsx:122 | a concatenation is blank exactly when both parts are |
| Text.IntToString | src/components/ContactField.tsx:78 | the decimal text of an integer is non-empty and starts with a minus sign exactly for negatives |
| Text.NatToStringRoundTrip | src/components/ContactField.tsx:82 | the decimal text of a natural number reads back as that number |
| Text.CountOneIff | src/components/ContactModal.tsx:86 | a character occurs exactly once when it occurs at some index and nowhere else |
| JsonValues.LookupNone | src/app/api/log/route.ts:46 | a property lookup finds nothing exactly when no member has that key |
| JsonValues.RemoveKey | src/app/api/log/route.ts:68-71 | the rest of a spread after a key is taken out lacks that key and keeps every other property |
| JsonValues.Stringify | src/app/api/log/route.ts:74-76 | `JSON.stringify` output never holds a raw newline, so each entry is one line |
| Contacts.WithField | src/components/ContactModal.tsx:63-68 | editing one field sets that field and leaves every other field, the id and the type as they were |
| Contacts.ParseType | src/types/contact.ts:1 | exactly `"company"` and `"individual"` are contact types, and parsing inverts their names |
| Contacts.ContactRoundTrip | src/components/ContactSelectionPage.tsx:31-36 | the JSON form of a contact decodes back to the same contact |
| Contacts.SetSlot | src/components/ContactSelectionPage.tsx:66-70 | changing one slot sets it and leaves the other two unchanged |
| Contacts.ParseAction | src/lib/validation.ts:6 | exactly `create`, `update` and `submit` are actions, and parsing inverts their names in both directions |
| Email.PatternImpliesWellFormed | src/components/ContactModal.tsx:86 | a string matching the regular expression has one `@`, no white space, and a dot after the `@` with text on both sides of it |
| Email.WellFormedImpliesPattern | src/components/ContactModal.tsx:86 | every such well-formed address matches the regular expression |
| Email.PatternIffWellFormed | src/components/ContactModal.tsx:86 | matching the regular expression and being well-formed are the same |
| ContactModal.ErrorsAmongSnoc | src/components/ContactModal.tsx:79-110 | checking one more field adds that field's error, if any, to the errors so far |
| ContactModal.ErrorsForUnrolled | src/components/ContactModal.tsx:79-110 | the error map is built by the checks in source order: the common fields, then the type's fields |
| ContactModal.ErrorsAmongSpec | src/components/ContactModal.tsx:81-110 | a field is in the error map exactly when it was checked and fails, with that field's message |
| ContactModal.ErrorsFor | src/components/ContactModal.tsx:78-110 | only the fields checked for the contact's type can carry an error, so a company never gets a first- or last-name error |
| ContactModal.ErrorsForSpec | src/components/ContactModal.tsx:78-110 | a field has an error exactly when its own check fails, and the entry holds the exact message the dialog shows |
| ContactModal.AcceptableHasNoErrors | src/components/ContactModal.tsx:112-113 | a contact meeting every rule gets no error at all |
| ContactModal.UnacceptableHasError | src/components/ContactModal.tsx:112-113 | a contact breaking some rule gets at least one error |
| ContactModal.ValidateAcceptsIff | src/components/ContactModal.tsx:112-113 | validation passes exactly when the required fields are non-blank, the e-mail matches, and the type's own fields are non-blank |
| ContactModal.EmailMessages | src/components/ContactModal.tsx:84-88 | a blank e-mail gets "Email is required"; otherwise the e-mail has an error exactly when it fails the pattern, and then it is "Email is not valid" |
| ContactModal.CompanyErrors | src/components/ContactModal.tsx:99-102 | a company is never asked for first or last names, and gets a company-name error exactly when that name is blank |
| ContactModal.IndividualErrors | src/components/ContactModal.tsx:103-109 | an individual is never asked for a company name, and gets first/last-name errors exactly when those are blank |
| ContactModal.DerivedName | src/components/ContactModal.tsx:118-124 | an individual's derived name is blank exactly when both name parts are, and a company without a company name keeps its typed name |
| ContactModal.SavedForm | src/components/ContactModal.tsx:118-124 | saving changes only the name, which becomes the derived name |
| ContactModal.SavedIndividualNameError | src/components/ContactModal.tsx:120-122 | a saved individual lacks a name exactly when both name parts are blank, whatever the typed name |
| ContactModal.SavedCompanyName | src/components/ContactModal.tsx:123 | a company's saved name is its company name when present (even if empty), and its typed name otherwise |
| ContactModal.BlankDraft | src/components/ContactModal.tsx:44-55 | a fresh draft is an individual with the given id and every text field empty |
| ContactModal.BlankDraftRejected | src/components/ContactModal.tsx:44-55 | saving the fresh draft unchanged fails on every field except the company name |
| ContactModal.CommonErrors | src/components/ContactModal.tsx:79-97 | the checks for name, e-mail and address, applied one at a time in source order |
| ContactModal.TypeErrors | src/components/ContactModal.tsx:99-110 | the type-dependent checks, applied after the common ones |
| ContactModal.Modal.constructor | src/components/ContactModal.tsx:38-39 | the dialog starts with the given contact as its draft and no errors |
| ContactModal.Modal.Open | src/components/ContactModal.tsx:41-59 | opening resets the draft to the initial contact, or to a blank individual with a fresh id, and clears the errors |
| ContactModal.Modal.HandleChange | src/components/ContactModal.tsx:63-68 | a text edit changes that one field of the draft, and nothing when there is no draft |
| ContactModal.Modal.HandleTypeChange | src/components/ContactModal.tsx:70-76 | a type toggle changes only the type, and a deselection changes nothing |
| ContactModal.Modal.Validate | src/components/ContactModal.tsx:78-114 | the stored errors are exactly `ErrorsFor` of the contact, and the result is true exactly when there are none |
| ContactModal.Modal.HandleSave | src/components/ContactModal.tsx:116-131 | the saved form is validated; it is handed on exactly when it has no errors, and nothing happens without a draft |
| ContactSummaryCard.MissingAmongSpec | src/components/ContactSummaryCard.tsx:29-34 | a field is reported exactly when it is among those checked and its value, trimmed, is empty |
| ContactSummaryCard.MissingAmongOrdered | src/components/ContactSummaryCard.tsx:18-47 | reported fields come in the card's order, each at most once |
| ContactSummaryCard.Missing | src/components/ContactSummaryCard.tsx:18-47 | every reported field is required for the contact's type and blank |
| ContactSummaryCard.MissingSpec | src/components/ContactSummaryCard.tsx:18-47 | a field is reported exactly when it is required for the contact's type and blank, and the report is in order |
| ContactSummaryCard.MissingFields | src/components/ContactSummaryCard.tsx:26-47 | the loop over the required fields, then the type's fields, yields exactly `Missing` |
| ContactSummaryCard.MissingMatchesErrors | src/components/ContactSummaryCard.tsx:18-47 | the card reports a field exactly when the dialog gives it an error, except that the card does not check the e-mail format |
| ContactSummaryCard.AcceptedHasNoMissing | src/components/ContactSummaryCard.tsx:18-47 | a contact the dialog accepts shows no missing fields |
| ContactSummaryCard.EmailFormatNotChecked | src/components/ContactSummaryCard.tsx:29-34 | a non-blank e-mail is never reported, whatever its format |
| ContactSummaryCard.NothingMissingYetRejected | src/components/ContactSummaryCard.tsx:18-47 | a company whose fields are filled but whose e-mail lacks `@` shows nothing missing, yet the dialog says "Email is not valid" |
| ContactSummaryCard.AddressLine | src/components/ContactSummaryCard.tsx:78-80 | an empty part gives the placeholder; otherwise the line is the street, the city and the country joined by ", " |
| ContactSummaryCard.AddressLineSpec | src/components/ContactSummaryCard.tsx:78-80 | the placeholder shows exactly when a part is empty; otherwise the line starts with the street and ends with the country |
| ContactSummaryCard.WhitespaceAddressShown | src/components/ContactSummaryCard.tsx:78-80 | any non-empty parts made only of white space are joined into the line with ", ", while the report lists all three as missing |
| ContactSummaryCard.UpperChar | src/components/ContactSummaryCard.tsx:68 | lower-case ASCII letters become upper case; other characters are unchanged |
| ContactSummaryCard.AvatarInitial | src/components/ContactSummaryCard.tsx:68 | the avatar shows one character: "?" for an empty name, otherwise the first character in upper case |
| ContactField.MapUsers | src/components/ContactField.tsx:81-92 | one contact per user, in the users' order |
| ContactField.ToContact | src/components/ContactField.tsx:81-92 | a result is an individual with the user's e-mail, and its id starts with the `dummy-` prefix followed by more text |
| ContactField.ToContactShape | src/components/ContactField.tsx:81-92 | a result is an individual with both name parts and the user's e-mail; each company or address part is copied when present and becomes empty text when it or its enclosing record is missing |
| ContactField.IdRoundTrip | src/components/ContactField.tsx:82 | a result's id is `dummy-` followed by the user's id in decimal, which reads back as that id |
| ContactField.IntToStringInjective | src/components/ContactField.tsx:82 | two integers with the same decimal text are equal |
| ContactField.DistinctIds | src/components/ContactField.tsx:82 | users with different ids give results with different ids |
| ContactField.ResultIsSavedForm | src/components/ContactField.tsx:84 | a result's name is the one the dialog derives, so saving it unchanged keeps it |
| ContactField.SearchError | src/components/ContactField.tsx:77-96 | a search shows an error exactly when it fails: the status text for a failed response, the thrown message, or "Unknown error" |
| ContactField.ModalInitialContact | src/components/ContactField.tsx:242 | the dialog starts from the slot's contact when editing and from nothing when creating |
| ContactField.OpeningDraft | src/components/ContactField.tsx:242 | creating, or editing an empty slot, opens a blank draft; editing a filled slot opens its contact |
| ContactField.SaveAction | src/components/ContactField.tsx:125-126 | a save is a creation exactly when the dialog was opened to create or the slot was empty, and it is never a submission |
| ContactField.LogBody | src/components/ContactField.tsx:131-139 | the posted body's `action` is the name of the action decided on save |
| ContactField.LogBodyReadBack | src/components/ContactField.tsx:131-139 | the action, the slot name and the contact can all be read back from the posted body |
| ContactField.Picker.constructor | src/components/ContactField.tsx:55-60 | the picker starts with no query, no results, no error, not loading, and the dialog closed in edit mode |
| ContactField.Picker.SetQuery | src/components/ContactField.tsx:62-66 | a blank query clears the results and starts no search; any other query starts one |
| ContactField.Picker.BeginSearch | src/components/ContactField.tsx:69-72 | a starting search is loading and has no error |
| ContactField.Picker.SettleSearch | src/components/ContactField.tsx:73-99 | a search ends not loading; success replaces the results; a failure keeps them and shows its error unless aborted |
| ContactField.Picker.HandleSelect | src/components/ContactField.tsx:108-110 | picking a result reports it as the slot's new value |
| ContactField.Picker.HandleEdit | src/components/ContactField.tsx:112-115 | opens the dialog in edit mode |
| ContactField.Picker.HandleCreateNew | src/components/ContactField.tsx:117-120 | opens the dialog in create mode |
| ContactField.Picker.HandleModalSave | src/components/ContactField.tsx:122-143 | a save reports the contact, closes the dialog, names the action by `SaveAction`, and posts `LogBody` |
| PageStorage.Persisted | src/components/ContactSelectionPage.tsx:54-57 | in a browser the state is written under the storage key and nothing else changes; outside one nothing is written |
| PageStorage.LoadInitialState | src/components/ContactSelectionPage.tsx:22-40 | outside a browser every slot is empty, and every filled slot is what decodes from the stored value under that slot's name |
| PageStorage.LoadFallsBack | src/components/ContactSelectionPage.tsx:22-40 | no browser, no entry, empty text, text that does not parse, or a non-object value all give three empty slots |
| PageStorage.LoadSlot | src/components/ContactSelectionPage.tsx:31-36 | each slot is read on its own: absent or null is empty, and a contact's JSON form gives that contact |
| PageStorage.SlotRoundTrip | src/components/ContactSelectionPage.tsx:31-36 | the JSON form of a slot reads back as that slot |
| PageStorage.StateSlotReadBack | src/components/ContactSelectionPage.tsx:31-36 | each slot of a written state reads back as that slot |
| PageStorage.LoadRoundTrip | src/components/ContactSelectionPage.tsx:22-57 | reloading after the page has written a state gives back exactly that state |
| SelectionPage.Preferred | src/components/ContactSelectionPage.tsx:118 | the body's truthy `message` wins, then its truthy `error`, then the fallback |
| SelectionPage.SubmitBody | src/components/ContactSelectionPage.tsx:86-89 | the submission body's `action` is `submit` |
| SelectionPage.SubmitSnackbar | src/components/ContactSelectionPage.tsx:81-129 | the snackbar shows success exactly when the reply is ok with a truthy `ok`; otherwise it shows, after "Failed to submit: ", the not-ok detail, "Failed to parse server response", the body's `message || error || "Server returned an error"`, or the thrown message, and a thrown non-`Error` gives "Failed to submit selections. Please try again." |
| SelectionPage.NotOkPreference | src/components/ContactSelectionPage.tsx:92-106 | a failed status shows the body's truthy `message`, else its truthy `error`, else the status text, which is also shown when the body is not JSON |
| SelectionPage.SavedMessage | src/components/ContactSelectionPage.tsx:72-79 | the text says "created" exactly for a creation and "updated" exactly for an update |
| SelectionPage.Page.constructor | src/components/ContactSelectionPage.tsx:43-57 | the page starts from the stored state with the snackbar closed, then writes the state back, so a reload agrees |
| SelectionPage.Page.PersistState | src/components/ContactSelectionPage.tsx:54-57 | writes the state under the storage key, after which a reload gives the current state |
| SelectionPage.Page.HandleFieldChange | src/components/ContactSelectionPage.tsx:66-70 | only the changed slot changes, and the store stays in step |
| SelectionPage.Page.HandleLogChange | src/components/ContactSelectionPage.tsx:72-79 | a reported save opens a success snackbar with the saved message |
| SelectionPage.Page.HandleFinalSubmit | src/components/ContactSelectionPage.tsx:81-129 | posts the `submit` body of the current state and shows `SubmitSnackbar` of the reply; the slots stay as they are |
| SelectionPage.Page.HandleCloseSnackbar | src/components/ContactSelectionPage.tsx:131-133 | closing hides the snackbar and keeps its message and severity |
| HomePage.Home.constructor | src/app/page.tsx:41-46 | the start page loads the stored state and writes it back, so a reload agrees |
| HomePage.Home.PersistState | src/app/page.tsx:43-46 | writes the state under the storage key, after which a reload gives the current state |
| HomePage.Home.HandleFieldChange | src/app/page.tsx:48-52 | only the changed slot changes, and the store stays in step |
| HomePage.Home.HandleFinalSubmit | src/app/page.tsx:63-77 | posts the same body as the selection page; nothing on the page changes |
| LogRoute.Entry | src/app/api/log/route.ts:68-71 | the entry is an object that always has a `timestamp` and keeps every other property of the body |
| LogRoute.EntryFields | src/app/api/log/route.ts:68-71 | the entry starts with `timestamp` (see Left out for array-index keys), keeps every property of the body, and takes the body's own `timestamp` over the clock |
| LogRoute.EntryLine | src/app/api/log/route.ts:73-89 | the serialised entry holds no newline |
| LogRoute.UnknownActionSpec | src/app/api/log/route.ts:46 | the test on `action` fails exactly when the action is not one of the three names |
| LogRoute.Respond | src/app/api/log/route.ts:8-129 | every reply is 200, 400 or 500; it is 200, with the body `{ ok: true }`, exactly for a valid request whose two file-system calls succeed, and every other reply says `ok: false`; a 500 carries the error "Failed to write log entry" and a message naming the directory or the file call that failed, with its reason or "Unknown error" |
| LogRoute.OneOutcome | src/app/api/log/route.ts:8-129 | the reply is 400 exactly for bad requests, 500 exactly for valid ones the file system failed, and 200 otherwise |
| LogRoute.BadRequests | src/app/api/log/route.ts:13-58 | bad JSON, a non-object body and a missing or unknown action each get their own error; an array is refused for its action |
| LogRoute.SplitJoin | src/app/api/log/route.ts:89 | lines without newlines, each written with a newline, read back as the same lines |
| LogRoute.JoinAppend | src/app/api/log/route.ts:89 | appending a line and a newline to the log text appends that line to its lines |
| LogRoute.LogFile.Post | src/app/api/log/route.ts:8-129 | answers `Respond`; a 200 appends exactly one line, the entry, and any other reply leaves the log as it was |
| LogRoute.AppendReadsBack | src/app/api/log/route.ts:87-99 | after an append, reading the log gives the earlier lines followed by the new entry |
| Validation.FailingSpec | src/lib/validation.ts:8-19 | a property is reported exactly when the schema checks it and it breaks its rule |
| Validation.RequiredKeysOnContact | src/lib/validation.ts:9-18 | on a contact's JSON form each required property fails exactly when empty (the e-mail also when rejected), and the type never fails |
| Validation.OptionalKeysOnContact | src/lib/validation.ts:12-14 | on a contact's JSON form the name parts and the company name never fail |
| Validation.NoIssueDecodes | src/lib/validation.ts:8-19 | an object none of whose properties fails is contact-shaped |
| Validation.ValidateContact | src/lib/validation.ts:29-31 | an accepted value is an object that decodes to the returned contact |
| Validation.ValidateContactSpec | src/lib/validation.ts:29-31 | the schema accepts exactly the objects with no failing property; a rejection names at least one, and an acceptance returns the decoded contact |
| Validation.ContactSchemaOnContacts | src/lib/validation.ts:8-19 | on a contact's JSON form the schema checks only non-empty id, name and address parts and a valid e-mail, without trimming, and returns the contact |
| Validation.UnknownTypeRejected | src/lib/validation.ts:10 | a type other than the two names is always rejected under `type` |
| Validation.ValidateLogRequest | src/lib/validation.ts:22-26 | a request passes exactly when it is an object with a known action and a string or absent `field`; the payload is passed through |
| Integration.ModalAcceptedPassesSchema | src/lib/validation.ts:8-19 | a contact the dialog accepts, with an id and an e-mail the schema accepts, passes the schema unchanged |
| Integration.SchemaLooserThanModal | src/lib/validation.ts:8-19 | the schema accepts a name of white space and a company without a company name; the dialog rejects both |
| Integration.SchemaRequestPassesRoute | src/app/api/log/route.ts:30-58 | every request the log schema accepts passes the endpoint's checks, with the same action |
| Integration.RouteIgnoresField | src/app/api/log/route.ts:45-58 | the endpoint accepts a numeric `field` that the schema rejects |
| Integration.PickerLogAccepted | src/components/ContactField.tsx:131-139 | the picker's log body passes the schema, and the endpoint answers 200 when the file system works |
| Integration.SubmitSucceeds | src/components/ContactSelectionPage.tsx:83-116 | the submission passes the schema and the endpoint, and the page then shows its success message |
| Integration.SubmitBodyAction | src/components/ContactSelectionPage.tsx:86-89 | the submission body names `submit`, carries the state as its payload and has no `field` |
| Integration.OkBodyAccepted | src/components/ContactSelectionPage.tsx:115-116 | the endpoint's success body makes the page show its success message |
| Integration.ErrorBodyShown | src/components/ContactSelectionPage.tsx:92-105 | an error body with a non-empty error shows its message after the prefix, or its error when the message is empty |
| Integration.RouteFailureShown | src/components/ContactSelectionPage.tsx:92-105 | when the endpoint fails, the page shows the reply's message after the prefix, or its error when the message is empty |

## Left out

- Rendering: the JSX trees, MUI components and styling are not modelled; only the values they show are.
- Search timing: the 400 ms debounce and the `AbortController` are not modelled.
  - Whether a settling search was aborted is an input of `ContactField.Picker.SettleSearch`.
- Network calls: the fetches to the user directory and to `/api/log` are outside the model.
  - Requests are returned as values and replies are given as inputs.
  - The picker's fire-and-forget log post ignores its outcome, so none is modelled.
- Randomness and time: `crypto.randomUUID()` and `new Date().toISOString()` are parameters (`freshId`, `now`).
- Local storage: a map from keys to what `JSON.parse` returns (empty text, unparsable text, or a value); the JSON grammar is not modelled.
- PageStorage.LoadInitialState: a stored slot that is neither null nor a contact's JSON form is read as empty.
  - The source keeps whatever non-null value it finds.
- File system: `mkdir` and `appendFile` are modelled only as succeeding or failing with an optional message.
  - A failed append leaves the log unchanged, so partial writes are not modelled.
  - Concurrent appends and their interleaving are not modelled.
  - The directory and file paths are not modelled.
- Numbers: JSON numbers are integers, so floating point and its formatting are not modelled.
- JSON objects: duplicate keys are assumed absent, so a lookup takes the first member with a key.
  - JavaScript would keep the last one.
- The circular-reference fallback of `JSON.stringify` in the endpoint is not modelled, because model values have no cycles.
- The endpoint's outer handler turns a thrown non-`Error` value into "Unknown error occurred".
  - The model's failures always come from `mkdir` or the write, so that branch does not arise.
- Console output (`console.error`) is not modelled.
- Validation.ValidateContact: the schema library's e-mail check is the parameter `isEmail`.
  - Its messages are not modelled: an issue is the name of the property that failed.
- ContactSummaryCard.UpperChar: `toUpperCase` is modelled for ASCII letters only.
- HomePage.Home: the start page's `handleLogChange` does nothing, so it has no member.
- LogRoute.EntryFields: JavaScript lists integer-like keys (array indices such as `"0"`) before all other keys, in ascending order.
  - The model keeps insertion order, so for a body with such keys the source's line starts with them, not with `timestamp`.
  - The same ordering applies to every object `JSON.stringify` writes, and `JsonValues.Stringify` does not model it either.
- ContactSummaryCard.AvatarInitial: `charAt(0)` takes a UTF-16 code unit, while the model takes a whole Unicode character.
  - A name starting with a character outside the Basic Multilingual Plane gives a lone surrogate in the source.
  - `toUpperCase` can return more than one character (`"ß"` becomes `"SS"`), so the source's initial is not always one character long.
- JsonValues.ToJsString: objects are always rendered as `"[object Object]"`.
  - The model does not capture objects whose own `toString` or `valueOf` property replaces the default.
  - In JavaScript, such a value can make `String(v)` or `new Error(v)` throw, for example `{"toString": 1}`, and the page would then show that TypeError's message instead.
