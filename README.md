# Prescription IQ analysis session — a Dafny model

This project models the client-side core of a medical-document analyser. A signed-in user
uploads a prescription, lab report, hospital bill or insurance rejection. The app sends the
document's data-URL payload, MIME type and city tier to a remote analysis service, shows the
returned analysis, and keeps a per-user history in the browser's `localStorage`.

The model has five modules:

- `Wrappers` holds the `Option` type used for every nullable or optional field.
- `JsBuiltins` holds the JavaScript string and list operations the core depends on, built on a
  first-occurrence search (`IndexOf`):
  - `split(sep)[0]` and `split(sep)[1]`, where the second is `undefined` when there is no separator;
  - `replace` with a one-character pattern, which replaces only the first occurrence;
  - `map`.
- `Types` holds the data model of `types.ts`. It covers the five document types, the analysis
  record with its required and optional sections, the user, and the five-field analysis state.
- `AnalysisView` holds the pure rules of the result view:
  - the colour of the document-type badge;
  - the type label;
  - which sections are rendered, and in what order.
- `App` holds the session controller, modelled as a class `Session`. Its fields are the user, the
  city tier, the auth view, the loading flag, the analysis state, the history, and the key-value
  store, a `map<string, Value>`. Each event handler is a method that states the new value of
  every field. The handlers preserve the invariant `Valid()`: the in-memory user and history
  agree with the store. Pure functions give:
  - what startup restores from the store (`Restore`);
  - what an analysis sends (`RequestFor`);
  - which screen is shown (`ScreenOf`).

The remote service is a function parameter of `Session.Analyze` that answers `Success(analysis)`
or `Failure`. Random ids and the clock are method parameters.

The document type travels as the string the service returned. The service's response schema
declares it a plain string, and the parse is an unchecked cast. The badge colour and the label
therefore work on any string, and `AsDocumentType` says which declared type a string names.

Startup follows the code (App.tsx:33-36). The user is set before the history is parsed, so a
history that fails to parse leaves the restored user signed in with the previous in-memory
history. It does not leave both untouched.

Sign-in never reads a stored history (App.tsx:49-60) and makes a fresh random id. So after a
logout, a new sign-in starts with an empty in-memory history: `Logout` empties it and `SignIn`
keeps it. The earlier lists stay in the store under their old keys.

## Model

| member | source | states |
|---|---|---|
| Types.DocumentTypesAreFive | types.ts:2-8 | there are exactly five document types, each with its own wire name, and every name parses back to its type |
| Types.AsDocumentType | types.ts:2-8 | a string names a document type exactly when it is one of the five wire names; every other string names none |
| Types.AsCityTier | App.tsx:186-193 | a string is a city tier exactly when it is "Tier-1", "Tier-2" or "Tier-3", the three values the region selector offers (and the three of types.ts:66) |
| Types.CityTierLabelRoundTrip | types.ts:66 | every tier's label parses back to that tier |
| JsBuiltins.IndexOf | components/AnalysisView.tsx:36 | the search behind `split` (App.tsx:52, 99) and `replace`: the first position of the character, or none exactly when it does not occur |
| JsBuiltins.FirstField | App.tsx:52 | `split(sep)[0]` is the longest prefix without the separator, ending at the first separator or at the end |
| JsBuiltins.SecondField | App.tsx:99 | `split(sep)[1]` is undefined exactly when there is no separator; otherwise it is the text after the first separator, up to the next separator |
| JsBuiltins.SplitJoined | App.tsx:99 | for `head + sep + tail` with no separator in `head`, the fields are `head` and the first field of `tail` |
| JsBuiltins.FirstFieldUnique | App.tsx:52 | a prefix free of the separator that ends at a separator or at the end is the first field |
| JsBuiltins.ReplaceFirst | components/AnalysisView.tsx:36 | `replace` keeps the length and changes only the first occurrence; a string without the character is unchanged |
| JsBuiltins.ReplaceFirstKeepsLaterOccurrences | components/AnalysisView.tsx:36 | an occurrence after the first one is not replaced |
| JsBuiltins.ReplaceFirstJoined | components/AnalysisView.tsx:36 | in `head + from + tail` with no `from` in `head`, exactly that occurrence is replaced |
| JsBuiltins.Map | components/AnalysisView.tsx:157 | `map` keeps the length and applies the function to each element in place |
| AnalysisView.DocTypeColor | components/AnalysisView.tsx:14-21 | PRESCRIPTION gives purple, HOSPITAL_BILL amber, LAB_REPORT emerald; every other string, INSURANCE_REJECTION and UNKNOWN included, gives blue; and each of purple, amber and emerald is given only for its own kind, so the colour tells the three kinds apart |
| AnalysisView.TypeLabel | components/AnalysisView.tsx:36 | the label has the name's length and equals the name when it has no underscore |
| AnalysisView.LabelOfJoinedName | components/AnalysisView.tsx:36 | `A_B` with no underscore in `A` is labelled `A B`, whatever `B` holds |
| AnalysisView.TwoWordKindNames | types.ts:4-6 | LAB_REPORT, HOSPITAL_BILL and INSURANCE_REJECTION are each two words with no underscore joined by one underscore |
| AnalysisView.HospitalBillLabel | components/AnalysisView.tsx:36 | HOSPITAL_BILL is labelled "HOSPITAL BILL" |
| AnalysisView.LabReportLabel | components/AnalysisView.tsx:36 | LAB_REPORT is labelled "LAB REPORT" |
| AnalysisView.InsuranceRejectionLabel | components/AnalysisView.tsx:36 | INSURANCE_REJECTION is labelled "INSURANCE REJECTION" |
| AnalysisView.OneWordKindLabels | components/AnalysisView.tsx:36 | PRESCRIPTION and UNKNOWN are labelled unchanged |
| AnalysisView.Render | components/AnalysisView.tsx:23-187 | the view is the disclaimer, then the header with badge colour, label and summary, then the optional sections, then every term and every finding |
| AnalysisView.OptionalSections | components/AnalysisView.tsx:53-147 | the generic-savings section (one card per alternative) appears iff there are alternatives, before the cost benchmark, which appears iff there are cost insights |
| AnalysisView.GenericSavingsShownIffNonEmpty | components/AnalysisView.tsx:53-85 | generic savings are rendered iff the alternatives are present and non-empty, one card per alternative in input order |
| AnalysisView.CostBenchmarkShownIffPresent | components/AnalysisView.tsx:89-147 | the cost benchmark is rendered iff cost insights are present, showing their procedure, tier comparison and expected range |
| AnalysisView.HighCostWarningShownIffOvercharged | components/AnalysisView.tsx:136-145 | the high-cost warning appears iff the bill is flagged as overcharged, and it quotes the (optional) billed amount of the cost insights |
| AnalysisView.EveryTermAndFindingShownInOrder | components/AnalysisView.tsx:157-182 | every simplified term is rendered as one card, at its own position, with its impact line; independently, every critical finding is rendered as one card, at its own position, with its action line |
| AnalysisView.OptionalKindsComeFromOptionalSections | components/AnalysisView.tsx:52-147 | savings and benchmark sections occur in the view exactly when they occur among the optional sections |
| AnalysisView.RenderIgnoresUnshownFields | components/AnalysisView.tsx:23-187 | id, timestamp, bill analysis, insurance insights and next steps do not affect what is rendered |
| App.HistoryKey | App.tsx:34 | a history key never equals the user key and ends with the user's id |
| App.HistoryKeyInjective | App.tsx:114 | different user ids give different history keys |
| App.Restore | App.tsx:29-37 | a user is restored iff the user key holds a record with a non-empty id; the history is loaded iff that user's key holds a list |
| App.ReloadRestoresSession | App.tsx:26-47 | reloading a consistent session with a user brings that user back iff its id is non-empty, and then brings back the same history too, provided an empty in-memory history does not sit beside a non-empty list stored under the user's key |
| App.LogoutForgetsUserButKeepsHistories | App.tsx:62-68 | after logout a reload restores nobody, and every stored history is still in the store |
| App.SignedInUserIsRestored | App.tsx:50-57 | the record written at sign-in is restored by a reload iff its id is non-empty |
| App.NewUser | App.tsx:50-55 | the user gets the given id and email and the current tier, and the given name or else the email's part before its first '@' |
| App.NameFromEmail | App.tsx:52 | with no name, `local@domain` gives the name `local` |
| App.RequestFor | App.tsx:94-101 | nothing is sent when the preview is missing or empty or no file is selected; otherwise the file's MIME type and the tier label are sent, and the payload is `split(',')[1]` of the preview: present iff the preview has a comma |
| App.DataUrlPayloadIsSent | App.tsx:99-101 | for a preview `header,rest` with no comma in the header, the payload sent is `rest` up to its next comma, and all of `rest` when it holds none |
| App.Enrich | App.tsx:103-107 | the stored result carries the new id and timestamp, and everything else is the service's record |
| App.Highlighted | App.tsx:206 | an entry with an id is highlighted iff the shown result has that id; with no result shown, or a shown result without an id, exactly the entries without an id are; a shown result with an id highlights no entry that lacks one |
| App.OnlyNewResultHighlighted | App.tsx:202-206 | after a successful analysis the new entry heads the history and is the only highlighted row, provided no older entry has its id |
| App.ScreenOf | App.tsx:135-259 | spinner iff loading; auth form or landing page without a user; otherwise the dashboard, showing the scanning notice iff analyzing, the result iff one is set, and the uploader with its run button iff a file is selected and its error banner iff the error text is non-empty; one history row per entry, in order |
| App.Session.constructor | App.tsx:13-24 | the first render has no user, tier 1, the landing view, loading on, the idle state and an empty history |
| App.Session.InitApp | App.tsx:26-47 | startup takes the user and history `Restore` finds, keeps the rest, always ends loading, and leaves the session consistent with the store |
| App.Session.SignIn | App.tsx:49-60 | the new user is signed in and written under the user key alone, the view goes to landing, and nothing else changes |
| App.Session.Logout | App.tsx:62-68 | the user and history are cleared, only the user key is removed, the view goes to landing and the state to idle |
| App.Session.ClearFile | App.tsx:70-78 | the analysis state becomes idle; user, history and store are untouched |
| App.Session.FileLoaded | App.tsx:80-92 | file and preview are set, error and result cleared, and the running flag kept |
| App.Session.BeginAnalyze | App.tsx:94-101 | with nothing to send nothing changes; otherwise the analysis is marked running with no error and the request of `RequestFor` is sent |
| App.Session.CompleteAnalyze | App.tsx:103-123 | success shows the stamped result and, with a user, prepends it to the history and stores the whole list under that user's key; failure shows the fixed message and keeps file, preview, result and history |
| App.Session.Analyze | App.tsx:94-124 | the whole handler: no change when nothing is sent, otherwise the success or failure update for the service's answer to that request |
| App.Session.PickHistoryEntry | App.tsx:205 | picking an entry sets only the shown result |
| App.Session.NewScan | App.tsx:227 | "New Scan" clears result, file and preview, keeping the error and the running flag |
| App.Session.ClearUpload | App.tsx:241 | the uploader's clear removes only file and preview |
| App.Session.GoHome | App.tsx:126-133 | without a user the view returns to landing; with one the analysis state becomes idle |
| App.Session.SelectCityTier | App.tsx:186-193 | the selector's chosen label becomes the tier, and nothing else changes |
| App.Session.ShowAuthForm | App.tsx:148 | the login button and the landing call to action set only the auth view |
| App.Session.SwitchAuthForm | App.tsx:156 | the switch link goes from login to sign-up and from sign-up to login |

## Left out

- The remote analysis service is not modelled: its client, prompt and response schema. It is a
  function parameter of `Session.Analyze` that answers success or failure. An empty reply,
  unparsable JSON and transport errors are all that one failure.
- The messaging webhook server is network plumbing and is not modelled.
- `FileReader`, `Math.random` and `Date.now` are inputs: `FileLoaded` receives the read preview,
  and the analysis methods receive the id and the timestamp. Ids are not claimed to be unique.
- React batching, stale closures and overlapping analyses are not modelled. `Analyze` is one
  sequential run that sees the current user and history. The case where `CompleteAnalyze`
  follows a logout or a second analysis is not modelled.
- A `localStorage` write that throws (a full quota) is not modelled. In the code that would land
  in the failure branch after the result was already shown.
- App.Session.InitApp: a history key holding JSON that is not a list is not modelled. The code
  would install that value as the history; the model leaves the history unchanged.
- App.Session.InitApp: `Valid()` is promised only when startup runs with no user signed in,
  which is the only time the effect runs.
- App.Session.SignIn: `Valid()` is promised only from a signed-out session, the only state in
  which the form is shown.
- App.Session.SelectCityTier: accepts only the three option values. The code casts the selected
  value without checking it (App.tsx:188), but the select element offers no other (App.tsx:191-193).
- Other attributes of a file (size, name display) and the uploader, landing, layout and
  auth-form widgets are presentation and are not modelled.
- `window.scrollTo`, `window.print` and every CSS class other than the badge colours are not
  modelled.
- The `console.error` logging in the two catch blocks (App.tsx:41, App.tsx:117) is not modelled.
- The password field is carried in `AuthInput` but never checked; the code has no credential logic.
