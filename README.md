# RunciterAI core, modelled in Dafny

RunciterAI is an AI writing assistant. A server keeps users, documents and
writing suggestions in an in-memory store. It asks a language-model service
for suggestion prompts and for the generated text of one suggestion. A
browser client edits one document, shows the suggestions in two columns and
lets the user accept a suggestion's text (appended or replacing).

This project models the logic of that core and proves its properties:

- **`Storage`** (`storage.dfy`): the in-memory store `MemStorage`, as a
  class.
  - Its three tables are JavaScript `Map`s. They are modelled by
    `OrderedMap.Table` (`ordered_map.dfy`), which keeps the key insertion
    order that `Array.from(map.values())` iterates in.
  - Each table has its own auto-increment counter.
  - Its methods state their whole new state, including "nothing else
    changes".
- **`Routes`** (`routes.dfy`): the HTTP handlers, as methods over the store.
  - They parse an id with JavaScript `parseInt`, modelled in `JsNumber`
    (`parse_int.dfy`) over unbounded integers: the sign, white-space, `0x`
    and trailing-text rules are as in JavaScript, but number rounding is not
    (see "## Left out").
  - They return 400 or 404 without touching the store, or act and answer.
  - The destructive "replace the suggestion batch" handler is proved with
    loop invariants against the ordered-table model.
  - The "mark generated after the gateway succeeds" handler is modelled too.
- **`Gateway`** (`gateway.dfy`): the fallback and unwrapping policy around
  the language-model service. The service itself is an oracle parameter.
- **`Auth`** (`auth.dfy`):
  - registration behind a username-uniqueness guard;
  - authentication that gives a single error for every failure;
  - the session gate.
  - The salted hash and its comparison are parameters.
- **Client**, as four modules:
  - `DocumentDraft` (`use_document_storage.dfy`): the debounced, optimistic
    document hook.
  - `Card` (`suggestion_card.dfy`): the card's "generate once" flag machine.
  - `Editor` (`editor.dfy`): the editor page's column order, auto-generation
    condition and accept handlers.
  - `RegisterForm` (`register_form.dfy`): the registration form's
    validation chain.
  - Each stateful piece is a class whose methods are proved equal to a pure
    step function on a state datatype. Lemmas about sequences of events are
    stated over those step functions.

`JsString` (`js_string.dfy`) gives the JavaScript semantics the code depends
on:

- string truthiness in `a || b`;
- `trim` with the ECMAScript white-space and line-terminator set;
- `length` in UTF-16 code units.

The clock (`new Date()`) is a `now` parameter. `bcrypt.genSalt` is a `salt`
parameter. Network replies are inputs.

The routes keep an invariant, `MemStorage.SuggestionKeysMatchIds`: every
stored suggestion's `id` equals its key.

- The constructor establishes it, and every route preserves it.
- Only a direct `updateSuggestion` call whose patch carries an `id` could
  break it, and no route makes one.
- The batch-replacement guarantees are stated under this invariant.

A second invariant, `MemStorage.GeneratedHaveContent`, says that a
suggestion marked generated has non-empty text. The two generate routes
preserve it.

## Model

| member | source | states |
|---|---|---|
| OrderedMap.Table.Get | server/storage.ts:55-57 | `map.get(k)` is the stored value when the key is present and absent otherwise |
| OrderedMap.Table.Set | server/storage.ts:68 | `map.set` keeps the table well formed; afterwards the key maps to the value and every other key is unchanged; a new key goes to the end of the iteration order, a present key keeps its place |
| OrderedMap.Table.Delete | server/storage.ts:153-155 | `map.delete(k)` leaves `k` absent and every other key with its old value |
| OrderedMap.Table.DeleteAll | server/routes.ts:118-121 | deleting a set of keys leaves each of them absent and every other key with its old value, and keeps the table well formed |
| OrderedMap.ValuesSetNew | server/storage.ts:60 | `Array.from(map.values())` after setting a new key is the old list with the new value appended |
| OrderedMap.ValuesOfSound | server/storage.ts:60 | every value listed is stored under some key |
| OrderedMap.ValuesOfComplete | server/storage.ts:74 | every stored value is listed |
| OrderedMap.ValuesStored | server/storage.ts:73-75 | every value of `Array.from(map.values())` is stored under a key and, in a well-formed table, every stored value is listed |
| OrderedMap.ValuesOfDeleteWhere | server/storage.ts:114-116 | deleting exactly the keys whose values fail a predicate leaves the list of values that satisfy it, in order |
| OrderedMap.DeleteAllTwice | server/storage.ts:154 | deleting one set of keys and then another equals deleting their union |
| OrderedMap.DeleteNothing | server/storage.ts:154 | deleting no key leaves the table as it is |
| Seqs.Filter | server/storage.ts:114-116 | `Array.filter`: the result keeps only (and every) element satisfying the predicate and is no longer |
| Seqs.FilterAppend | client/src/pages/Editor.tsx:88-93 | filtering a concatenation is concatenating the filtered parts |
| Seqs.FilterFilter | client/src/pages/Editor.tsx:88-93 | filtering twice is filtering once by the conjunction |
| JsString.Or | server/storage.ts:87-88 | `s \|\| fallback`: an absent or empty string gives the fallback, any other string itself |
| JsString.TrimStart | server/openai.ts:52 | the result is a suffix of the input; the dropped prefix is white space; the result does not start with white space |
| JsString.TrimEnd | server/openai.ts:52 | the result is a prefix; the dropped suffix is white space; the result does not end with white space |
| JsString.Trim | server/openai.ts:52 | `trim()` is a piece of the input with only white space before and after it, and neither starts nor ends with white space |
| JsString.TrimPadded | server/openai.ts:52 | stripping white space from the front and then from the back leaves a piece that white space pads on both sides |
| JsString.TrimEmptyIffBlank | server/openai.ts:52 | `s.trim() === ""` iff every character of `s` is white space |
| JsString.Utf16Length | client/src/pages/Register.tsx:60 | `length` counts UTF-16 code units: between the character count and twice it, and equal to it when every character is in the Basic Multilingual Plane |
| JsNumber.ParseInt | server/routes.ts:27 | text with nothing but white space is `NaN`; a number comes only from text whose first non-blank character is a sign or a digit; a negative number only after a `-` |
| JsNumber.DigitPrefix | server/routes.ts:27 | the longest prefix made of digits of the radix |
| JsNumber.ParseIntRoundTrip | server/routes.ts:27 | printing an integer in decimal and parsing it gives the integer back |
| JsNumber.ParseIntIgnoresSuffix | server/routes.ts:27 | a decimal followed by any text not starting with a digit (nor with `x` after a lone `0`) parses to that decimal |
| JsNumber.ParseIntUnsigned | server/routes.ts:27 | the value of an unsigned digit string |
| JsNumber.ParseIntNegative | server/routes.ts:27 | a `-` before a digit string negates its value |
| JsNumber.ParseIntNaN | server/routes.ts:27-29 | text whose first character is neither white space, a sign nor a decimal digit is `NaN` |
| JsNumber.ParseIntLetterSuffix | server/routes.ts:27 | `"12abc"` parses to 12 |
| JsNumber.ParseIntHexPrefix | server/routes.ts:27 | `"0x1A"` parses to 26, because `parseInt` without a radix reads a `0x` prefix as hexadecimal |
| JsNumber.ParseIntPaddedNegative | server/routes.ts:27 | `" -7"` parses to -7 |
| Storage.NewDocument | server/storage.ts:81-93 | a created document has its id and the clock's time; its title is never empty: the given title if non-empty, else "Untitled"; its content is the given content, else "" |
| Storage.MergeDocument | server/storage.ts:102-106 | every key in the patch overwrites, every absent key is kept, and `lastModified` is always the clock's even when the patch carries one |
| Storage.NewSuggestion | server/storage.ts:123-135 | a created suggestion is never generated and has empty generated content; its description defaults to "" and its position to "right" |
| Storage.MergeSuggestion | server/storage.ts:144-147 | every key in the patch overwrites, every absent key is kept |
| Storage.FirstWithUsername | server/storage.ts:59-63 | absent iff no user has the name; otherwise the earliest-inserted user with exactly that name |
| Storage.UserByUsername | server/storage.ts:59-63 | absent iff no stored user has the name; a user found has that name and is stored under some key of the table |
| Storage.SuggestionsOfDocument | server/storage.ts:113-117 | `getSuggestions(d)` lists exactly the stored suggestions of `d`: each listed one is stored and belongs to `d`, each stored one of `d` is listed |
| Storage.MemStorage.constructor | server/storage.ts:38-52 | the store starts with one document (id 1, "Untitled", "", no owner) and no users or suggestions; the counters are 1, 2 and 1 |
| Storage.MemStorage.GetUser | server/storage.ts:55-57 | a user found by id carries that id |
| Storage.MemStorage.GetUserByUsername | server/storage.ts:59-63 | in a valid store: absent iff no user has the name; a user found has the name and is the one stored under its own id |
| Storage.MemStorage.CreateUser | server/storage.ts:65-70 | the new user takes the counter's id, which was unused, and is stored as given (no uniqueness check); the counter goes up by one; nothing else changes |
| Storage.MemStorage.GetAllDocuments | server/storage.ts:73-75 | every listed document is stored, and in a valid store every stored document is listed |
| Storage.MemStorage.GetDocument | server/storage.ts:77-79 | a document is found iff one is stored under the id, and then it is among those `getAllDocuments` lists |
| Storage.MemStorage.CreateDocument | server/storage.ts:81-93 | the new document is `NewDocument` under the counter's unused id; the counter goes up by one; nothing else changes |
| Storage.MemStorage.UpdateDocument | server/storage.ts:95-110 | an unknown id gives absent and changes nothing; a known id stores and returns `MergeDocument`; no other key or table changes |
| Storage.MemStorage.GetSuggestions | server/storage.ts:113-117 | every listed suggestion belongs to the document |
| Storage.MemStorage.GetSuggestion | server/storage.ts:119-121 | a suggestion is found iff one is stored under the id, and in a valid store it is then listed by `getSuggestions` for its own document |
| Storage.MemStorage.CreateSuggestion | server/storage.ts:123-135 | the new suggestion is `NewSuggestion` under the counter's unused id; the counter goes up by one; nothing else changes |
| Storage.MemStorage.UpdateSuggestion | server/storage.ts:137-151 | an unknown id gives absent and changes nothing; a known id stores and returns the shallow merge; nothing else changes |
| Storage.MemStorage.DeleteSuggestion | server/storage.ts:153-155 | returns true iff the id was present; afterwards it is absent, every other suggestion is unchanged and the counter is not rewound |
| Routes.ListDocuments | server/routes.ts:14-22 | 200 with every document in insertion order |
| Routes.GetDocument | server/routes.ts:25-42 | 400 exactly when the id parses to `NaN`; else 404 for a missing document and 200 with it otherwise |
| Routes.CreateDocument | server/routes.ts:45-57 | a rejected body gives 400 and no change; otherwise 201 with the created document, stored under a fresh id |
| Routes.PatchDocument | server/routes.ts:60-79 | 400 or 404 leave the store unchanged; otherwise the merge is stored and returned with 200 (the update never reports the document missing) |
| Routes.ListSuggestions | server/routes.ts:82-100 | 400 exactly for `NaN`; 404 for a missing document; else 200 with that document's suggestions in insertion order |
| Routes.DocumentSuggestionIds | server/routes.ts:118-121 | when ids equal keys, the ids of a document's listed suggestions are exactly the keys of its stored suggestions |
| Routes.DeleteDocumentSuggestions | server/routes.ts:118-121 | deleting those ids leaves the document with no suggestion and every other document's list as it was |
| Routes.AppendBatch | server/routes.ts:124-133 | appending a batch of one document's suggestions extends its list by the batch and no other document's list |
| Routes.ClearSuggestions | server/routes.ts:118-121 | the deletion loop removes exactly the ids listed for the document at the start; users, documents and counters are unchanged |
| Routes.SaveBatch | server/routes.ts:124-133 | the creation loop stores one suggestion per proposal, in order, under consecutive fresh ids, and appends them to the iteration order |
| Routes.ReplaceBatch | server/routes.ts:117-135 | after clearing and appending, the document's list is the batch, none of its old ids remain, other documents are untouched |
| Routes.ReplaceSuggestions | server/routes.ts:117-133 | the delete-then-create sequence of the handler, with the three guarantees above and both store invariants kept |
| Routes.GenerateSuggestions | server/routes.ts:102-140 | 400/404 leave the store unchanged; on 200 the returned batch follows the gateway's order with fresh ids, `generated == false` and the copied fields; the document's suggestions are then exactly the batch, no old id remains, other documents' lists are unchanged |
| Routes.GenerateContent | server/routes.ts:143-178 | 400, 404 (suggestion or document missing) and 500 (gateway failure) leave the store unchanged; on success the suggestion is stored with `generated == true` and the gateway's text and returned with 200 |
| Routes.StoreGeneratedContent | server/routes.ts:160-178 | a gateway failure gives 500 and no change; otherwise the suggestion is stored and returned with `generated == true` and the gateway's text, and nothing else changes |
| Gateway.DefaultSuggestions | server/openai.ts:108-135 | exactly five entries, positions left, left, right, right, right |
| Gateway.Unwrap | server/openai.ts:89-91 | an array is used as is; an object gives its `suggestions` or []; only `null` fails |
| Gateway.FromParsed | server/openai.ts:85-98 | a non-empty unwrapped list is returned; an empty one, or a failure, gives the defaults; never empty |
| Gateway.GenerateSuggestions | server/openai.ts:49-103 | never empty, whatever the service does |
| Gateway.GenerateContent | server/openai.ts:12-44 | a failure exactly when the service call fails, with "Failed to generate content. Please try again later."; otherwise the reply's own text when it is non-empty and the fixed apology when it is empty; success text is never empty |
| Gateway.BlankContentIgnoresUpstream | server/openai.ts:51-53 | null or white-space-only content gives the defaults whatever the service would say |
| Gateway.SuggestionsComeFromUpstreamOrDefaults | server/openai.ts:85-102 | the result is the defaults or the service's own unwrapped list for non-blank content |
| Gateway.FailuresGiveDefaults | server/openai.ts:99-102 | a failed call, an unparsable reply and an empty reply give the defaults |
| Gateway.UpstreamListUsed | server/openai.ts:89-98 | a non-empty array or `{suggestions: [...]}` is returned as it is |
| Auth.IsAuthenticated | server/auth.ts:16-22 | the request passes iff the session's user id is truthy; otherwise 401 "Unauthorized" |
| Auth.StoredUsersPassGate | server/auth.ts:16-22 | every id the store issues is truthy, so a session holding it passes |
| Auth.Authenticate | server/auth.ts:58-78 | succeeds iff a user has the name and the password compares; the result has no password; every failure is "Invalid username or password" |
| Auth.SameErrorForUnknownUserAndWrongPassword | server/auth.ts:62-70 | an unknown user and a wrong password give identical results |
| Auth.FirstWithUsernameAppend | server/storage.ts:59-63 | a user appended under a name nobody had is the one found by that name |
| Auth.NewUserIsFound | server/auth.ts:30-45 | after storing a new user under an unused name, looking the name up finds that user |
| Auth.RegisterThenAuthenticate | server/auth.ts:36-67 | assuming `compare(p, hash(p))`, registering `(u, p)` and then authenticating `(u, p)` succeeds |
| Auth.Register | server/auth.ts:27-53 | a taken name fails with "Username already exists" and no change; otherwise the hash (not the password) is stored under a fresh id, the user counter goes up by one, the view without password is returned, and authenticating afterwards succeeds |
| DocumentDraft.AfterEdit | client/src/hooks/useDocumentStorage.ts:53-72 | an edit overlays exactly the keys present, schedules exactly this payload (replacing any scheduled one) and sends nothing yet |
| DocumentDraft.AfterTimer | client/src/hooks/useDocumentStorage.ts:69-71 | the timer sends the scheduled payload, if any, and leaves nothing scheduled |
| DocumentDraft.AfterRefresh | client/src/hooks/useDocumentStorage.ts:26-35 | seeding fills a local value from the server only while it is null and never overwrites one |
| DocumentDraft.AfterUnmount | client/src/hooks/useDocumentStorage.ts:75-81 | unmounting cancels the scheduled write and sends nothing |
| DocumentDraft.LocalDocument | client/src/hooks/useDocumentStorage.ts:84-90 | absent iff no server document; otherwise the server document with content and title taken from the local values when set |
| DocumentDraft.Edits | client/src/hooks/useDocumentStorage.ts:53 | a burst of edit events, one per payload |
| DocumentDraft.RunAppend | client/src/hooks/useDocumentStorage.ts:53-81 | running two event sequences one after the other is running their concatenation |
| DocumentDraft.BurstKeepsLastPending | client/src/hooks/useDocumentStorage.ts:64-71 | after any burst of edits exactly the last payload is scheduled and nothing is sent |
| DocumentDraft.BurstSendsOnlyLast | client/src/hooks/useDocumentStorage.ts:64-71 | when the timer fires after a burst, exactly the last payload is sent; earlier ones are not merged |
| DocumentDraft.TitleThenContentSendsContent | client/src/hooks/useDocumentStorage.ts:53-71 | a title edit followed by a content edit sends the content patch alone |
| DocumentDraft.RefreshesKeepLocalValues | client/src/hooks/useDocumentStorage.ts:26-35 | without edits, a local value that is set survives any server refreshes, timers and unmounts |
| DocumentDraft.NothingSentAfterUnmount | client/src/hooks/useDocumentStorage.ts:75-81 | after unmount, no further payload is sent unless a new edit is made |
| DocumentDraft.QuietRun | client/src/hooks/useDocumentStorage.ts:64-71 | with nothing scheduled and no edits, nothing is sent |
| DocumentDraft.FirstLoadShowsServer | client/src/hooks/useDocumentStorage.ts:26-35 | after the first load, the hook shows exactly the server document |
| DocumentDraft.DocumentStorage.constructor | client/src/hooks/useDocumentStorage.ts:11-13 | local values null, nothing scheduled, nothing sent |
| DocumentDraft.DocumentStorage.UpdateDocument | client/src/hooks/useDocumentStorage.ts:53-72 | the instance's new state is `AfterEdit` of its old state |
| DocumentDraft.DocumentStorage.TimerFires | client/src/hooks/useDocumentStorage.ts:69-71 | the new state is `AfterTimer` of the old state |
| DocumentDraft.DocumentStorage.Refresh | client/src/hooks/useDocumentStorage.ts:26-35 | the new state is `AfterRefresh` of the old state |
| DocumentDraft.DocumentStorage.Unmount | client/src/hooks/useDocumentStorage.ts:75-81 | the new state is `AfterUnmount` of the old state |
| Card.Absorb | client/src/components/editor/SuggestionCard.tsx:28-32 | a reply marked generated makes the suggestion generated with the reply's text; any other reply leaves it unchanged; no other field changes |
| Card.AfterClick | client/src/components/editor/SuggestionCard.tsx:40-52 | a request is issued iff the suggestion is not generated and none is in flight; otherwise the callback runs at once with the suggestion |
| Card.AfterSettle | client/src/components/editor/SuggestionCard.tsx:28-37 | settling clears `isGenerating` on success and on error; success absorbs the reply and runs the waiting callback once with the updated suggestion; an error runs none |
| Card.RunKeepsValid | client/src/components/editor/SuggestionCard.tsx:15-37 | the card shows "generating" exactly while a request is in flight, after any events |
| Card.GeneratedNeverRequests | client/src/components/editor/SuggestionCard.tsx:41-48 | once generated, no later click issues a request and the suggestion stays generated |
| Card.ClickThenSuccess | client/src/components/editor/SuggestionCard.tsx:40-45 | click then success: one request, one callback with the absorbed suggestion, not generating |
| Card.ClickThenFailure | client/src/components/editor/SuggestionCard.tsx:35-45 | click then error: one request, no callback, suggestion unchanged, not generating |
| Card.SuggestionCard.constructor | client/src/components/editor/SuggestionCard.tsx:14-15 | a fresh card is idle with no request and no callback |
| Card.SuggestionCard.HandleAccept | client/src/components/editor/SuggestionCard.tsx:40-52 | the card's new state is `AfterClick` of its old state |
| Card.SuggestionCard.Settle | client/src/components/editor/SuggestionCard.tsx:28-37 | the card's new state is `AfterSettle` of its old state |
| Editor.AddContent | client/src/pages/Editor.tsx:109-111 | the new content is the old content, a blank line, and the generated text, each recoverable by position |
| Editor.Displayed | client/src/pages/Editor.tsx:88-93 | only and every left or right suggestion is shown, and every left one comes before every right one |
| Editor.DisplayedKeepsOrderedList | client/src/pages/Editor.tsx:253 | a list already ordered left-then-right, with no other position, is shown unchanged |
| Editor.DisplayedKeepsGroupOrder | client/src/pages/Editor.tsx:88-93 | for every list, the left cards shown are the list's left suggestions in their input order, and likewise the right cards |
| Editor.FindById | client/src/pages/Editor.tsx:102-104 | absent iff no suggestion has the id; otherwise the first one that has it |
| Editor.ShouldAutoGenerate | client/src/pages/Editor.tsx:77-85 | a batch is requested iff the displayed content is non-empty, suggestions are not loading and there are none |
| Editor.NoAutoGenerateAfterBatch | client/src/pages/Editor.tsx:77-85 | the generated batch is never empty, so refetching it never triggers another batch |
| Editor.AcceptAdd | client/src/pages/Editor.tsx:95-129 | a generated suggestion is appended directly; otherwise the generate request is sent, a failure ends the handler, a miss in the lookup list or a missing document means no update, and a hit appends the looked-up text |
| Editor.AcceptReplace | client/src/pages/Editor.tsx:131-157 | like add mode, but the content becomes exactly the generated text and no loaded document is needed |
| Editor.HandleAccept | client/src/pages/Editor.tsx:95-157 | the handler's requests are those of `AcceptAdd` or `AcceptReplace`, and the hook receives exactly their edit, if any |
| Editor.AcceptAddAppendsGenerated | client/src/pages/Editor.tsx:120-121 | a click on an idle card that succeeds with text `g` leads the add handler to append `g` after a blank line, which the hook shows at once |
| RegisterForm.HandleSubmit | client/src/pages/Register.tsx:39-70 | a request is sent iff all three checks pass, with payload exactly `{username, password}`; a rejection has one of the three titles |
| RegisterForm.MissingFieldsFirst | client/src/pages/Register.tsx:42-49 | "Missing fields" is reported iff a field is empty, whatever else is wrong |
| RegisterForm.MismatchSecond | client/src/pages/Register.tsx:51-58 | with all fields filled, "Password mismatch" is reported iff the password differs from its confirmation |
| RegisterForm.TooShortThird | client/src/pages/Register.tsx:60-67 | with matching filled fields, the only rejection is "Password too short", iff the length is below 8 |
| RegisterForm.SubmittedPasswordLength | client/src/pages/Register.tsx:60 | a submitted password has at least 4 characters, and at least 8 when all are in the Basic Multilingual Plane |
| RegisterForm.AstralPasswordAccepted | client/src/pages/Register.tsx:60 | four characters outside the Basic Multilingual Plane count as eight and pass |
| RegisterForm.AfterResponse | client/src/pages/Register.tsx:23-29 | the page goes to /login iff registration succeeded |

## Left out

- Express plumbing: request and response objects, JSON bodies, `createServer`, and the `catch` blocks that answer 500 when the store throws. The in-memory store never throws, so those paths are unreachable here.
- The zod schemas in `@shared/schema` are not part of this model. `insertDocumentSchema.parse` becomes an input: the parsed payload, or `None` for a rejection.
- The `ZodError` branch of the generate-content route is left out. Nothing on that path validates with zod, so it is unreachable.
- The language-model client and its prompt texts: both calls are oracle parameters. Replies that are not proposal-shaped are not modelled: items of the wrong type, and extra keys.
- Routes.GenerateContent: the route passes `generateContent` a fresh request object with no schema check, so `generateContentSchema` plays no part.
- bcrypt: `genSalt` is a `salt` parameter and `hash` and `compare` are function parameters. The 72-byte password truncation of bcrypt is not modelled.
- Session gating of routes: the routes never apply `isAuthenticated`, so the gate is modelled on its own.
- Async interleaving, timers and React scheduling: the handlers run one after another. The debounce is modelled as discrete edit, timer and unmount events, not as real time.
- React Query caching, invalidation and toasts are left out. The lookup list searched after a refetch is an explicit input of the editor's handlers.
- JsNumber.ParseInt: the result is an unbounded integer. The rounding of JavaScript numbers above 2^53 and `Infinity` for very long digit strings are not modelled.
- Routes.PatchDocument: the body is a typed `DocumentPatch` whose fields are absent or a value of the right type. The source spreads `req.body` into the stored document unchecked, so a body with a `null` title, a wrongly typed value such as a numeric `content`, or extra keys is stored as sent; the model cannot express those bodies.
- Card.SuggestionCard: each card holds its own copy of the suggestion. In the source the card mutates the suggestion object itself (`generated` and `generatedContent`), and that object is shared with the React Query cache, the editor's list and a second card that the always-mounted mobile panel renders for the same suggestion. So after one card generates, the other card sees `generated` and does not send a request. The model does not capture this aliasing.
- Storage.MemStorage.GetUser: its contract is stated under the store invariant `Valid()`, which every store method keeps.
- Routes.GenerateSuggestions: its per-document guarantees are stated under `SuggestionKeysMatchIds`. The routes establish and keep that invariant; only a direct `updateSuggestion` with an `id` in the patch could break it.
- Login.tsx: its request is a commented-out stub.
- `TiptapEditor.tsx`: it wraps a third-party editor.
- `editorUtils.ts`: it depends on the DOM and the clock.
- The pure presentation files are left out: `AuthAwareHome.tsx`, `Sidebar.tsx`, `SuggestionPanel.tsx`, `ThemeToggle.tsx`, `useTheme.ts`, `App.tsx`, `Home.tsx` and `HomePage.tsx`.
