# AyurConnect AI — a verified model of its client logic and API gateway

AyurConnect AI is a web app that puts a hosted language model behind a few
forms. A user can:

- look up complementary herbs for an allopathic medicine;
- have a lab report analysed;
- take two dosha questionnaires;
- sign in with a one-time password;
- send a herb cart to WhatsApp.

Two interchangeable HTTP handlers relay these requests to the model: an
Express server and a serverless function.

This project models the logic the app owns around the model. Each piece is
stated in Dafny and proved:

- the upload and input checks;
- the React components' state and how each event handler updates it;
- the share texts built from a result;
- the questionnaire completeness rules and the payload merge;
- the sign-in step machine;
- the cart's order link;
- the gateways' dispatch, `parts` construction, response schemas and error
  mapping.

## Layout

| file | module | models |
|---|---|---|
| `common.dfy` | `Common` | `Option`, the outcome of an awaited call, JavaScript truthiness and `||`, the browser's `AbortController` |
| `text.dfy` | `Text` | `String.prototype.trim` (ECMAScript white space and line terminators), `split` on one character, `Array.prototype.join`, and the loops that append blocks to a string |
| `types.dfy` | `Types` | the result records of `src/types.ts` and the dosha records the dosha components read |
| `lab_analyzer.dfy` | `LabAnalyzer` | `src/components/LabAnalyzer.tsx` |
| `medicine_finder.dfy` | `MedicineFinder` | `src/components/MedicineFinder.tsx` |
| `dosha_finder.dfy` | `DoshaFinder` | `src/components/DoshaFinder.tsx` |
| `dosha_identifier.dfy` | `DoshaIdentifier` | `src/components/DoshaIdentifier.tsx` |
| `login_modal.dfy` | `LoginModal` | `src/components/LoginModal.tsx` |
| `cart_modal.dfy` | `CartModal` | `src/components/CartModal.tsx` |
| `gateway.dfy` | `Gateway` | JSON values, response schemas, the request body and the lab `parts` shared by both handlers |
| `server.dfy` | `Server` | the `/api/gemini` route of `server.js` |
| `api_gemini.dfy` | `ApiGemini` | the handler exported by `api/gemini.js` |

### How the code is modelled

**Components.**
- Each React component is a class `State` with one field per `useState` hook.
- Where the component keeps an abort controller in a ref, the class has a
  nullable `AbortController` field for it.
- Each handler is a method with a `modifies` clause. Its `ensures` clauses
  give the whole new state.
- A ghost `Valid()` predicate holds the component's invariant, and every
  handler preserves it. For example, pasted text and a selected file are
  never held together.

**Asynchronous handlers.** Each `async` handler is split at its `await`:
- `Submit` is the part before the `await`. It returns what would be sent,
  or `None` when validation stops the handler.
- `Settle` is the part after it. It takes the call's outcome as a
  parameter: the value returned, or the thrown error's name and message.
  It also takes any value the closure captured when the submit ran, such as
  whether the user was signed in.

**Share texts.** Each formatter appends to a string in loops, and so does
its model: a method whose `while` loops are proved to build a specification
function of the result. Lemmas then state the text's properties from that
function. Each text:
- has a fixed form when there is no result or the result is an error;
- includes a section only when its list is present and non-empty;
- puts a separator between findings but not after the last;
- is trimmed.

**Gateway handlers.** Each handler is a method. It returns the one response
it writes (status and JSON body) and the list of model calls it made. The
model, `JSON.parse` and `encodeURIComponent` are function parameters.

### Behaviour of the code worth noting

- A `lab` request without `input` throws a `TypeError` when the handler reads
  `input.text`:
  - `server.js` answers 500 with that error's message;
  - `api/gemini.js` answers 500 with its generic message.
- `server.js` handles the request types `medicine` and `lab`. Every other
  type, `dosha` included, gets 400 `Invalid request type`.
- The two handlers answer a lab request in different shapes:
  - `server.js` returns an object `{findings, error}`.
  - `api/gemini.js` returns a bare array of findings, and `[]` when the
    trimmed model text is empty.
- `api/gemini.js` requires only `suggestion` and `source` of a lifestyle item.
  A conforming item can therefore lack the `details` and `duration` the client
  renders (`ApiGemini.LifestyleItemMayLackDetails`). Its medicine schema has
  no `error` property.
- The service functions take no abort signal, though the components pass one.
  Aborting the old controller does not stop the old continuation from writing
  its outcome. The model keeps the controller slot but claims nothing about
  cancellation. The `null` ("cancelled") response is a possible outcome of the
  call like any other.
- `DoshaFinder` decides completeness by counting answered keys.
  `DoshaFinder.CompleteIffAllAnswered` shows that this holds exactly when
  every question has an answer, because only question keys are ever written.

## Model

| member | source | states |
|---|---|---|
| Text.Trim | src/components/MedicineFinder.tsx:86 | the trimmed text starts and ends with a non-white-space character (or is empty) and is no longer than the input |
| Text.TrimStartKeepsSuffix | src/components/LabAnalyzer.tsx:174 | trimming the start removes exactly a leading run of white space and keeps the rest |
| Text.TrimEndKeepsPrefix | src/components/LabAnalyzer.tsx:174 | trimming the end removes exactly a trailing run of white space and keeps the rest |
| Text.TrimEmptyIffBlank | src/components/LabAnalyzer.tsx:174-175 | a text trims to "" exactly when every character is white space, in both directions |
| Text.TrimIdempotent | src/components/LabAnalyzer.tsx:67 | trimming a trimmed share text changes nothing |
| Text.TrimAfterLead | src/components/MedicineFinder.tsx:15-41 | a text that starts with a title which is not blank at either end keeps that title after trimming, and is unchanged when its last character is not white space |
| Text.TrimKeepsLeadingText | src/components/DoshaFinder.tsx:43-65 | trimming a text that opens with non-blank text only trims the end of what follows |
| Text.AppendEach | src/components/MedicineFinder.tsx:23-29 | the `forEach` loop that appends one block per item leaves the text followed by every item's block in order |
| Text.ListSection | src/components/MedicineFinder.tsx:21-39 | a list section is empty exactly when its list is missing or has no entries, and otherwise opens with its heading |
| Text.AppendListSection | src/components/DoshaFinder.tsx:47-63 | the guarded heading and the `forEach` over the entries append exactly that list section |
| Text.JoinStep | src/components/LabAnalyzer.tsx:39-63 | one iteration of a loop that writes a separator after every block but the last extends the join of the items so far |
| Text.JoinMapIsJoin | src/components/LabAnalyzer.tsx:39-64 | the text a separator-between loop builds equals `Array.prototype.join` of the mapped blocks |
| Text.Split | src/components/LabAnalyzer.tsx:21 | `split` on one character always yields at least one field |
| Text.SplitJoin | src/components/CartModal.tsx:23 | splitting a `join` on its one-character separator gives the parts back when no part contains the separator |
| LabAnalyzer.SizeCeiling | src/components/LabAnalyzer.tsx:117-134 | the ceiling is 31457280 bytes and inclusive: exactly that size of an accepted type is taken, one byte more is refused, and any other type is refused |
| LabAnalyzer.DataUrlPayload | src/components/LabAnalyzer.tsx:21 | `split(',')[1]` of a data URL `header,payload` is the payload when neither part contains a comma |
| LabAnalyzer.ShareTextCases | src/components/LabAnalyzer.tsx:26-68 | no result gives 'No analysis available.'; an error gives 'AyurConnect AI: ' and the error; otherwise the text is trimmed, starts with the title and equals the draft when the page address does not end in white space |
| LabAnalyzer.DraftAfterTitle | src/components/LabAnalyzer.tsx:30-67 | trimming the draft keeps its title and only touches the end of the page address |
| LabAnalyzer.AppendHerbSection | src/components/LabAnalyzer.tsx:42-51 | appends the herb section, which is present only for a non-empty list |
| LabAnalyzer.AppendLifestyleSection | src/components/LabAnalyzer.tsx:52-60 | appends the lifestyle section, which is present only for a non-empty list |
| LabAnalyzer.AppendFinding | src/components/LabAnalyzer.tsx:40-60 | appends one finding's header lines and its two sections |
| LabAnalyzer.AppendFindings | src/components/LabAnalyzer.tsx:39-64 | the loop over findings leaves the findings joined with '---' between consecutive ones and none after the last |
| LabAnalyzer.AppendQueryLines | src/components/LabAnalyzer.tsx:31-32 | appends the "For text" line only for non-empty text and the "For file" line only for a file name |
| LabAnalyzer.AppendFindingsBody | src/components/LabAnalyzer.tsx:35-65 | missing or empty findings give the all-normal sentence; otherwise the heading and the joined findings |
| LabAnalyzer.FormatLabResultForSharing | src/components/LabAnalyzer.tsx:26-68 | the imperative formatter returns exactly the share text |
| LabAnalyzer.State.constructor | src/components/LabAnalyzer.tsx:78-86 | every hook starts empty, and no controller is held |
| LabAnalyzer.State.FileChange | src/components/LabAnalyzer.tsx:117-134 | a wrong type or an oversize file sets its error and is not selected; an acceptable file is selected, clears the pasted text and the error |
| LabAnalyzer.State.Drop | src/components/LabAnalyzer.tsx:136-154 | the same acceptance rules for a dropped file, and the drag highlight ends |
| LabAnalyzer.State.TextChange | src/components/LabAnalyzer.tsx:236-240 | typing stores the text and drops any selected file, so text and file never coexist |
| LabAnalyzer.State.RemoveFile | src/components/LabAnalyzer.tsx:261-263 | the remove button drops the file and keeps the text |
| LabAnalyzer.State.Reset | src/components/LabAnalyzer.tsx:103-114 | clears inputs, result, query, error and loading, and aborts the current controller |
| LabAnalyzer.State.Submit | src/components/LabAnalyzer.tsx:168-182 | aborts the previous controller and installs a fresh one before validating; blank text without a file sets the error and sends nothing; otherwise starts loading, clears error and result, and records the trimmed text and the file name |
| LabAnalyzer.State.Settle | src/components/LabAnalyzer.tsx:184-218 | the request carries the text only when non-blank and the image only with a file; an error response sets the error and clears the result; a null response changes neither; an AbortError is never shown; loading ends on every path |
| MedicineFinder.Classify | src/components/MedicineFinder.tsx:104-112 | a non-null response becomes exactly one of result or error: its own error first, then a result iff it has a summary, else the unexpected-error message |
| MedicineFinder.SummarySection | src/components/MedicineFinder.tsx:17-19 | the summary section is empty exactly when there is no truthy summary |
| MedicineFinder.ShareTextCases | src/components/MedicineFinder.tsx:11-42 | no result and an error give the fixed texts; otherwise the text is trimmed, starts with the title and equals the draft when the page address does not end in white space |
| MedicineFinder.DraftAfterTitle | src/components/MedicineFinder.tsx:15-41 | trimming the draft keeps the title and only touches the end of the page address |
| MedicineFinder.AppendSummarySection | src/components/MedicineFinder.tsx:17-19 | appends exactly the summary section |
| MedicineFinder.FormatMedicineResultForSharing | src/components/MedicineFinder.tsx:11-42 | the imperative formatter returns exactly the share text |
| MedicineFinder.State.constructor | src/components/MedicineFinder.tsx:45-51 | every hook starts empty, and no controller is held |
| MedicineFinder.State.NameChange | src/components/MedicineFinder.tsx:139 | the input stores the name as typed and nothing else changes |
| MedicineFinder.State.Reset | src/components/MedicineFinder.tsx:67-76 | clears name, result, query, error and loading, and aborts the current controller |
| MedicineFinder.State.Submit | src/components/MedicineFinder.tsx:78-94 | aborts the previous controller before validating; a name blank after trimming sets the error and sends nothing; otherwise the trimmed name is both sent and recorded as the query |
| MedicineFinder.State.Settle | src/components/MedicineFinder.tsx:96-120 | a null response leaves result and error alone; any other response sets exactly what `Classify` says; an AbortError is never shown; another error shows its message or the fallback; loading ends on every path |
| DoshaFinder.QuestionCount | src/components/DoshaFinder.tsx:82-84 | the sections hold 10 questions under 10 distinct keys |
| DoshaFinder.SectionsCount | src/components/DoshaFinder.tsx:13-39 | the reduce over the sections sums to 10, and the keys are the ten listed |
| DoshaFinder.SubsetOfSameSize | src/components/DoshaFinder.tsx:83-84 | a subset of a finite set with the same size is the whole set |
| DoshaFinder.CompleteIffAllAnswered | src/components/DoshaFinder.tsx:83-88 | with only question keys stored, the count test holds exactly when every question has an answer |
| DoshaFinder.ShareTextCases | src/components/DoshaFinder.tsx:41-66 | no result gives ""; otherwise the trimmed text is the whole draft and ends with the disclaimer |
| DoshaFinder.DraftUntouched | src/components/DoshaFinder.tsx:43-65 | the draft starts with the title and ends with the disclaimer, so `trim` leaves it unchanged |
| DoshaFinder.FormatDoshaResultForSharing | src/components/DoshaFinder.tsx:41-66 | the imperative formatter returns exactly the share text |
| DoshaFinder.State.constructor | src/components/DoshaFinder.tsx:70-73 | no answers, no result, no error, not loading |
| DoshaFinder.State.AnswerChange | src/components/DoshaFinder.tsx:86-88 | overwrites the given key and leaves every other answer unchanged |
| DoshaFinder.State.Submit | src/components/DoshaFinder.tsx:90-99 | an incomplete questionnaire sets the error and sends nothing; otherwise starts loading, clears error and result and sends the answers |
| DoshaFinder.State.Settle | src/components/DoshaFinder.tsx:100-110 | the analysis becomes the result; a failure sets the fixed prefix followed by the thrown message; loading ends |
| DoshaFinder.State.Reset | src/components/DoshaFinder.tsx:112-117 | empties the answers and clears result, error and loading |
| DoshaIdentifier.CompleteMergesEveryAnswer | src/components/DoshaIdentifier.tsx:61-76 | with option and free text kept apart, a complete questionnaire sends a non-empty answer for each question: the free text when it is not blank, else the chosen option |
| DoshaIdentifier.UnansweredSendsEmpty | src/components/DoshaIdentifier.tsx:61-74 | a question with neither option nor text is sent as '' and makes the questionnaire incomplete |
| DoshaIdentifier.CombineAnswers | src/components/DoshaIdentifier.tsx:73-76 | the reduce builds a map with exactly the six question keys, holding the free text when non-empty, else the chosen option, else '' |
| DoshaIdentifier.State.constructor | src/components/DoshaIdentifier.tsx:37-42 | empty answers, no results, no error, not loading |
| DoshaIdentifier.State.Answer | src/components/DoshaIdentifier.tsx:51-54 | choosing an option records it and empties that key's free text |
| DoshaIdentifier.State.CustomAnswerChange | src/components/DoshaIdentifier.tsx:56-59 | typing free text records it and nulls that key's chosen option |
| DoshaIdentifier.State.Submit | src/components/DoshaIdentifier.tsx:63-76 | an incomplete questionnaire sets the error and sends nothing; otherwise clears error and both result slots, starts loading and sends the merged answers |
| DoshaIdentifier.State.Settle | src/components/DoshaIdentifier.tsx:78-90 | a signed-in user's analysis becomes the result; another user's goes to the pending slot and never to the result; a failure sets the fixed message; loading ends |
| DoshaIdentifier.State.PromotePending | src/components/DoshaIdentifier.tsx:44-49 | once signed in, a pending result moves to the result and the pending slot empties; otherwise nothing changes |
| DoshaIdentifier.State.StartOver | src/components/DoshaIdentifier.tsx:102 | clears result, pending result, answers and free texts |
| LoginModal.DigitsOnly | src/components/LoginModal.tsx:44 | the filtered text holds only digits and is no longer than the input |
| LoginModal.DigitsOnlyConcat | src/components/LoginModal.tsx:44 | filtering distributes over concatenation, so the digits keep their order |
| LoginModal.DigitsOnlyFixed | src/components/LoginModal.tsx:44 | the filter leaves a text unchanged exactly when it is all digits |
| LoginModal.DigitsOnlyIdempotent | src/components/LoginModal.tsx:44 | filtering twice is filtering once |
| LoginModal.PhoneKeepsTypedDigits | src/components/LoginModal.tsx:44-46 | a non-digit typed before a stored number is dropped, leaving the number as it was |
| LoginModal.State.constructor | src/components/LoginModal.tsx:19-24 | the dialog starts on the details step with empty fields |
| LoginModal.State.DetailsChange | src/components/LoginModal.tsx:40-51 | the phone keeps only digits and is stored only when there are at most 10 of them, otherwise it is unchanged; the email is stored as typed |
| LoginModal.State.OtpChange | src/components/LoginModal.tsx:151 | the code is stored as typed |
| LoginModal.State.SendOtp | src/components/LoginModal.tsx:53-61 | an empty email or phone sets the error and keeps the step; otherwise loading starts and the details are sent |
| LoginModal.State.SettleSendOtp | src/components/LoginModal.tsx:62-70 | a successful send shows the server's message and moves to the code step; a failure keeps the step and shows the message or the fallback |
| LoginModal.Utf16Length | src/components/LoginModal.tsx:75 | `otp.length` counts UTF-16 code units: at least one and at most two per character |
| LoginModal.Utf16LengthOfBmp | src/components/LoginModal.tsx:75 | for characters up to U+FFFF, digits included, the JavaScript length is the number of characters |
| LoginModal.AstralCharCountsTwice | src/components/LoginModal.tsx:75 | four digits and one emoji have length 6, so the length check lets that code through |
| LoginModal.State.VerifyOtp | src/components/LoginModal.tsx:73-80 | only a code whose JavaScript `length` (UTF-16 code units) is exactly 6 is sent, with the email; any other length sets the error and sends nothing |
| LoginModal.State.SettleVerify | src/components/LoginModal.tsx:81-91 | success shows the fixed message and schedules the success callback; failure shows the message or the fallback; loading ends |
| LoginModal.State.Back | src/components/LoginModal.tsx:156 | returns to the details step without clearing what was typed |
| LoginModal.State.CloseReset | src/components/LoginModal.tsx:26-38 | closing restores step, details, code, error, message and loading to their initial values |
| CartModal.OrderMessageLines | src/components/CartModal.tsx:22-23 | the message is the greeting followed by exactly one "- name" line per item in cart order, with no trailing newline |
| CartModal.OrderUrlRoundTrip | src/components/CartModal.tsx:22-25 | decoding the link's text and splitting it into lines gives back the greeting and every item's line |
| CartModal.Render | src/components/CartModal.tsx:19-66 | a closed modal renders nothing; each row's remove button passes that item's id; the order footer appears exactly when the cart is non-empty |
| Gateway.Get | server.js:117 | a key is found exactly when some member has it, and the value found is that of the last member with the key |
| Gateway.RequiredString | server.js:95 | a required, declared string property of a conforming object holds a string |
| Gateway.RequiredArray | server.js:95 | a required, declared array property of a conforming object holds an array whose elements conform |
| Gateway.LabPartsShape | server.js:147-153 | a text part exactly when the text is truthy, an image part exactly when there is an image, text first, nothing else |
| Gateway.BuildParts | server.js:147-153 | the two conditional `push`es build exactly the parts list |
| Server.HerbReadable | server.js:77-86 | a herb that fits the schema has all five fields the client renders |
| Server.LifestyleReadable | server.js:23-32 | a lifestyle item that fits the schema has all four fields the client renders |
| Server.HerbsReadable | server.js:74-88 | a list of conforming herbs reads in full |
| Server.LifestylesReadable | server.js:89-93 | a list of conforming lifestyle items reads in full |
| Server.FindingReadable | server.js:68-96 | any finding that fits the lab finding schema reads as a complete finding for the client |
| Server.CatchReply | server.js:167-176 | a SyntaxError answers 500 with the fixed format message; any other error answers 500 with its message, or the default when that is empty |
| Server.ModelReply | server.js:161-176 | 200 exactly when the model returned text that parses, with the parsed value as the body; unparsable text answers with the format message, never the text |
| Server.UnparsableTextHidden | server.js:168-171 | two unparsable model replies get the same answer |
| Server.Handle | server.js:115-177 | 'medicine' makes one call with the medicine schema; 'lab' builds the parts and makes one call with the lab schema, or answers 500 without input; any other type answers 400 'Invalid request type' with no call |
| ApiGemini.MedicineSchemaFields | api/gemini.js:10-18 | the medicine schema requires its three declared fields and declares no `error` |
| ApiGemini.LifestyleItemMayLackDetails | api/gemini.js:15 | an item with only `suggestion` and `source` fits the lifestyle schema, yet the client cannot read it |
| ApiGemini.MedicineReply | api/gemini.js:43-65 | 200 exactly when the reply parses, with the parsed body; otherwise the generic 500 |
| ApiGemini.LabReply | api/gemini.js:54-65 | a blank reply answers 200 with `[]`; otherwise the trimmed reply is parsed and returned, and a failure answers the generic 500 |
| ApiGemini.FailuresLookAlike | api/gemini.js:62-65 | a thrown call and an unparsable reply get the same generic answer |
| ApiGemini.Handle | api/gemini.js:35-66 | a non-POST request answers 405 before anything else; 'medicine' and 'lab' make one call each; an unknown type answers 400 with no call; every failure answers the generic 500 |

## Left out

- The language model itself: its reply is an outcome parameter. The prompts, the system instructions and the schema `description` texts are wording, not behaviour.
- The network, `fetchFromApi` and the service functions: a call's outcome is a parameter. `identifyDosha`, `getDoshaAnalysis`, `sendOtp` and `verifyOtp` are imported by the components, but the service file does not define them. They are modelled only by the outcomes their callers handle.
- `FileReader` in `fileToBase64`: only the split of the data URL is modelled. The URL arrives as a parameter, missing when the reader failed.
- `window.location.href` is a parameter of the formatters. `window.open`, `navigator.share` and the clipboard are not modelled.
- `encodeURIComponent` and `JSON.parse` are function parameters. Their only assumed property is that decoding undoes encoding, and only in `CartModal.OrderUrlRoundTrip`.
- Timers (the 300 ms close reset, the 1000 ms success delay) are discrete events: `LoginModal.State.CloseReset`, and the `true` result of `LoginModal.State.SettleVerify`.
- `LoginModal.State.VerifyOtp`: the browser's constraint validation is not modelled. That covers the code input's `required`, `pattern="\d{6}"` and `maxLength={6}`, and the phone input's `required`, `pattern` and `maxLength`. A browser that enforces them blocks the submit before the handler runs. The model gives only the handler's own checks, which run whenever the form is submitted.
- Scrolling effects, the drag-over handlers' `preventDefault`, and the clearing of the file input's DOM value do not change modelled state.
- The unmount effects that abort the controller are not modelled.
- The wording of the questions and their options is not modelled, only their keys.
- Express and serverless plumbing is not modelled: CORS, the body-size limit, static serving, the listen call and the `API_KEY` start-up checks.
- `Server.Handle` and `ApiGemini.Handle`: a model reply whose `text` is `undefined` is not modelled; replies are strings. In the source, `JSON.parse(undefined)` throws a `SyntaxError` and `undefined.trim()` throws a `TypeError`. Both end in the same 500 that the model gives a non-blank reply that does not parse.
- `Server.Handle` and `ApiGemini.Handle`: the `TypeError` for a missing `input` carries the engine's message for an `undefined` input. A `null` input, which gives a slightly different message, is treated the same.
- `Server.Handle`: "is a SyntaxError" is decided by the error's name, not its prototype.
- `DoshaFinder.State.Settle`: a non-`Error` value thrown by the call is taken to carry its `String(...)` form as its message.
- The presentation components (headers, cards, navigation, loaders), `PersonalizationForm` and `ConnectModal` have no logic beyond setting fields and are not modelled.
