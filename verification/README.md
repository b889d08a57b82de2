# Cake order form — a Dafny model

This project models the client-side order capture of a small bakery web page
(`src/App.jsx`). The customer picks one of three cake sizes. The page then
shows an order form (`Uploader`) where they load a reference photo, describe
the cake, optionally give a name and contact, and place the order with the
order service.

The model has six modules:

- `Wrappers`: the `Option` type (`null`/`undefined` versus a value).
- `JsString`: ECMAScript's `String.prototype.trim`, and the blank-description
  test `!desc.trim()` built on it.
- `JsValue`: the JSON values the reply carries. It gives their JavaScript
  truthiness and their `String()` conversion, which is the conversion
  `new Error(detail)` applies.
- `Sizes`: the fixed `sizes` table and the heading's
  `sizes.find(s => s.key === sizeKey)?.title` lookup.
- `OrderForm`: the draft value (`Draft`), the submit guard, the button's
  `disabled` expression, the request builder and the failure message. It also
  has the two halves of `submit` as pure transition functions (`Begin`,
  `Complete`). The class `Uploader` holds the six `useState` fields. Its event
  methods are each proved equal to the matching transition.
- `AppShell`: the class `App`, holding `selected` and the order form mounted
  for it, with the card-click and back transitions.

The asynchronous `submit` is split at its `await`. `BeginSubmit` applies the
guard, sets `saving` and returns the request body. `CompleteSubmit` takes the
outcome: `Ok(id)`, `NotOk(detail)` or `Thrown(message)`. The file read is
split the same way: `HandleFile` starts it, and `FileLoaded(dataUri)` is its
`onload`. Each event is atomic.

In several places the code behaves differently from what a reader of the page might expect; the model follows the code:

- The guard `if (!image || !desc.trim()) return` does not test `saving`. Only
  the button's `disabled` expression does (`GuardIgnoresSaving`,
  `EnabledIffIdleAndGuard`).
- After a success the form stays filled and the button is enabled again. So
  the order can be placed again, and a later success overwrites `savedId`
  (`ResubmitAfterSuccess`). There is no terminal "submitted" state.
- A failure leaves in place any `savedId` from an earlier success
  (`FailureKeepsSavedId`, `ThrownKeepsSavedId`).
- An optional field is left out of the request when it is the empty string,
  not when it is blank. A whitespace-only name is sent (`WhitespaceNameIsSent`).
- `!image` is JavaScript truthiness, so an empty-string image blocks the guard
  just as `null` does (`GuardFailureIsNoOp`).
- The failure message is `String(detail)` whenever `detail` is truthy. A list
  of objects is therefore alerted as `[object Object],[object Object]`, and an
  empty list is truthy but alerts `""` (`ObjectListDetailMessage`,
  `EmptyArrayTruthyButBlank`). The exception is an object with its own
  `toString` member: converting it throws, and the model does not cover that
  case (see "## Left out").

## Model

| member | source | states |
|---|---|---|
| `JsString.TrimStart` | src/App.jsx:46 | the result is the suffix of `s` left after dropping its leading whitespace; every dropped character is whitespace and the result does not start with whitespace |
| `JsString.TrimEnd` | src/App.jsx:46 | the result is the prefix of `s` left after dropping its trailing whitespace; every dropped character is whitespace and the result does not end with whitespace |
| `JsString.BlankIffAllWhitespace` | src/App.jsx:46 | `!desc.trim()` holds exactly when every character of `desc` is ECMAScript whitespace or a line terminator |
| `JsString.NotBlankAt` | src/App.jsx:46 | one non-whitespace character anywhere makes the description non-blank |
| `JsString.TrimIsSlice` | src/App.jsx:46 | `trim` returns a contiguous slice of its input and removes only whitespace on either side; a non-empty result has non-whitespace at both ends |
| `JsString.TrimCharacterized` | src/App.jsx:46 | any split of a string into whitespace, a middle with non-whitespace ends (or empty), and whitespace has `trim`'s result as its middle |
| `JsString.TrimIdempotent` | src/App.jsx:46 | trimming a trimmed string changes nothing |
| `JsValue.NatToDecimal` | src/App.jsx:61 | `String(n)` of a non-negative integer is a non-empty run of decimal digits with no leading zero |
| `JsValue.DecimalRoundTrip` | src/App.jsx:61 | reading the digits of `String(n)` back gives `n` |
| `JsValue.TruthyStringText` | src/App.jsx:61 | a string `detail` is truthy exactly when it is non-empty, and it converts to itself |
| `JsValue.TruthyScalarTextNonEmpty` | src/App.jsx:61 | a truthy `detail` that is not an array converts to a non-empty message |
| `JsValue.EmptyArrayTruthyButBlank` | src/App.jsx:61 | an empty-array `detail` passes the `||` test yet converts to the empty message |
| `JsValue.ObjectListText` | src/App.jsx:61 | a two-object array converts to `[object Object],[object Object]` |
| `Sizes.Find` | src/App.jsx:85 | `find` succeeds exactly when some entry has the key, and it returns the first entry of the table with that key |
| `Sizes.FindEntry` | src/App.jsx:85 | when keys are distinct, looking up an entry's key returns that entry |
| `Sizes.CardTitle` | src/App.jsx:5-9 | every card's key is a size key, and the heading lookup finds that card's own title |
| `Sizes.TitleIffSizeKey` | src/App.jsx:85 | the heading finds a title exactly for the three table keys |
| `JsString.Trim` | src/App.jsx:46 | `desc.trim()`, defined as `TrimEnd(TrimStart(s))`; `TrimIsSlice`, `TrimCharacterized` and `TrimIdempotent` state its properties |
| `JsString.IsBlank` | src/App.jsx:46 | `!desc.trim()`, defined as "the trimmed string is empty"; `BlankIffAllWhitespace` and `NotBlankAt` state its properties |
| `JsValue.Truthy` | src/App.jsx:61 | JavaScript truthiness of `detail` (line 61) and of `savedId` (line 136); `TruthyStringText` and `EmptyArrayTruthyButBlank` state its properties |
| `JsValue.ToText` | src/App.jsx:61 | `String(detail)`, the message `new Error` stores; `TruthyStringText`, `TruthyScalarTextNonEmpty`, `ObjectListText`, `NatToDecimal` and `DecimalRoundTrip` state its properties |
| `Sizes.Title` | src/App.jsx:85 | `sizes.find(s => s.key === sizeKey)?.title` over the `Table` constant of lines 5-9; `CardTitle` and `TitleIffSizeKey` state its properties |
| `OrderForm.CanSubmit` | src/App.jsx:46 | the negation of the guard that returns on `!image` or `!desc.trim()`; `GuardFailureIsNoOp`, `GuardSuccessRaisesSaving`, `RequestSentIffGuard` and `GuardIgnoresSaving` state its properties |
| `OrderForm.ButtonDisabled` | src/App.jsx:133 | the button's `disabled` expression; `EnabledIffIdleAndGuard` and `WhitespaceDescriptionBlocks` state its properties |
| `OrderForm.OmitIfEmpty` | src/App.jsx:56-57 | the `name` and `contact` members: an empty field becomes absent, any other value is sent as it is; `OptionalFieldsOmittedIffEmpty` and `WhitespaceNameIsSent` state its properties |
| `OrderForm.BuildRequest` | src/App.jsx:52-58 | the request body object; `RequestCarriesDraft` and `OptionalFieldsOmittedIffEmpty` state its properties |
| `OrderForm.FailureMessage` | src/App.jsx:61 | `data.detail`, or 'Failed to save' when it is falsy, as an `Error` message; `FailureMessageCases`, `ObjectListDetailMessage` and `FailureKeepsSavedId` state its properties |
| `OrderForm.Begin` | src/App.jsx:45-59 | the guard, `setSaving(true)` and the request; `BeginSubmit` is proved equal to it, and `GuardFailureIsNoOp`, `GuardSuccessRaisesSaving`, `RequestSentIffGuard` and `RequestCarriesDraft` state its properties |
| `OrderForm.Complete` | src/App.jsx:60-67 | the `try`/`catch`/`finally` tail; `CompleteSubmit` is proved equal to it, and `SavingClearedOnEveryOutcome`, `SuccessKeepsForm`, `ResubmitAfterSuccess`, `FailureKeepsSavedId` and `ThrownKeepsSavedId` state its properties |
| `OrderForm.Uploader.constructor` | src/App.jsx:31-36 | a new form holds no image, empty description, name and contact, `saving` false and a null `savedId` |
| `OrderForm.Uploader.HandleFile` | src/App.jsx:38-43 | with no file nothing happens; with a file a read starts; the draft is unchanged either way |
| `OrderForm.Uploader.FileLoaded` | src/App.jsx:41 | the loaded data URI replaces the image and nothing else changes |
| `OrderForm.Uploader.SetDesc` | src/App.jsx:114 | the description is overwritten and nothing else changes |
| `OrderForm.Uploader.SetName` | src/App.jsx:124 | the name is overwritten and nothing else changes |
| `OrderForm.Uploader.SetContact` | src/App.jsx:128 | the contact is overwritten and nothing else changes |
| `OrderForm.Uploader.BeginSubmit` | src/App.jsx:45-59 | the new draft and the returned request are those of `Begin` on the old draft and the form's size |
| `OrderForm.Uploader.CompleteSubmit` | src/App.jsx:60-67 | the new draft and the alerted message are those of `Complete` on the old draft and the outcome |
| `OrderForm.GuardFailureIsNoOp` | src/App.jsx:46 | with no image, an empty-string image or a whitespace-only description, `submit` sends nothing and changes nothing |
| `OrderForm.GuardSuccessRaisesSaving` | src/App.jsx:46-47 | with an image and a description that is not all whitespace, a request is sent and `saving` becomes true with nothing else changed |
| `OrderForm.RequestSentIffGuard` | src/App.jsx:46 | a request is sent exactly when the guard passes, whatever `saving` is |
| `OrderForm.GuardIgnoresSaving` | src/App.jsx:46 | a draft that is already saving still gets through the guard |
| `OrderForm.RequestCarriesDraft` | src/App.jsx:52-55 | the request carries the size key, the untrimmed description and the image exactly |
| `OrderForm.OptionalFieldsOmittedIffEmpty` | src/App.jsx:56-57 | `customer_name` and `contact` are absent exactly when the field is empty, and sent verbatim otherwise |
| `OrderForm.WhitespaceNameIsSent` | src/App.jsx:56 | a name of one space is sent |
| `OrderForm.SavingClearedOnEveryOutcome` | src/App.jsx:65-66 | from any draft, including one edited or given a new image while the request was in flight, completing `submit` on an ok reply, a not-ok reply or a thrown error leaves `saving` false |
| `OrderForm.SuccessKeepsForm` | src/App.jsx:62 | an ok reply sets `savedId` to `data.id`, alerts nothing and keeps image, description, name and contact |
| `OrderForm.ResubmitAfterSuccess` | src/App.jsx:62-66 | after a success the button is enabled, the same request can be sent again, and a second success overwrites `savedId` |
| `OrderForm.FailureKeepsSavedId` | src/App.jsx:61-66 | a not-ok reply alerts `String(detail)` if `detail` is truthy, else "Failed to save"; it only clears `saving` and keeps the earlier `savedId` |
| `OrderForm.ThrownKeepsSavedId` | src/App.jsx:63-66 | a thrown error alerts its own message and only clears `saving` |
| `OrderForm.FailureMessageCases` | src/App.jsx:61 | a non-empty string `detail` is alerted as it is; an empty, null or missing one gives "Failed to save" |
| `OrderForm.ObjectListDetailMessage` | src/App.jsx:61 | a `detail` holding a list of two objects is alerted as `[object Object],[object Object]` |
| `OrderForm.EnabledIffIdleAndGuard` | src/App.jsx:133 | the button is enabled exactly when not saving and the submit guard passes, so enabled implies the guard passes |
| `OrderForm.LatestImageWins` | src/App.jsx:41 | on an order form, two completed reads in a row leave only the second data URI held and change nothing else |
| `OrderForm.WhitespaceDescriptionBlocks` | src/App.jsx:46 | a description of spaces, tab, newline and ideographic space blocks both the guard and the button |
| `OrderForm.MultiLayerScenario` | src/App.jsx:45-62 | a multi-layer order with photo and description sends exactly those fields, and an ok reply with id "7" leaves the truthy saved id "7" |
| `AppShell.App.constructor` | src/App.jsx:146 | the page starts with nothing selected and no order form |
| `AppShell.App.SelectCard` | src/App.jsx:176-181 | clicking card `i` selects that entry's key and mounts a fresh, empty order form whose heading finds that entry's title |
| `AppShell.App.Back` | src/App.jsx:181 | back clears the selection and discards the order form, whatever state it was in |

## Left out

- The request itself: `fetch`, the endpoint address from `VITE_BACKEND_URL`, `JSON.stringify` and `res.json()`. The reply is the abstract `Outcome`, and a failed parse is a `Thrown` outcome. A `None` member of `Request` stands for a member that `JSON.stringify` leaves out.
- The `FileReader` data-URI encoding. A data URI is an opaque string, and a read that never completes is simply a `FileLoaded` that never arrives.
- OrderForm.Uploader.HandleFile: does not tie the read it starts to the data URI a later `FileLoaded` delivers, because that encoding is done by the browser.
- `alert`: it appears only as the message that `CompleteSubmit` returns.
- React's render scheduling and the closures a render captures. Every event reads the current state.
- Two requests in flight at once. `saving` is one flag, so the first completion clears it while the other request is still pending. The button prevents this from the page, but the model does not track pending requests.
- JsValue.ToText: prints every `Number` in plain decimal digits. JavaScript numbers are doubles: only integers are modelled, and above 2^53 `String()` prints the shortest digits that read back as the same double, padded with zeros (2^64 is alerted as 18446744073709552000, not 18446744073709551616). Fractions and the exponent form used from 10^21 on are not modelled either. It also prints every object as "[object Object]". A JSON object with its own `toString` member, alone or inside an array `detail`, makes `String()` throw a TypeError, because that member cannot be called and `valueOf` gives back the object. The `catch` then alerts that TypeError's browser-specific message instead.
- AppShell.App.Back: drops the order form, so a submit still in flight when back is pressed is not represented. In the page that request still completes, and on a failure its `alert` appears after the form is gone.
- The rendering: the confirmation text `Saved! #id` (only its `savedId &&` truthiness test, `Truthy`), the preview image, the card visuals, the animation, the styling and the footer year.
