# Chat widget conversation state, verified in Dafny

A model of the `ChatApp` class of a browser chat widget (`script.js`): the
conversation state it keeps (`messages`, `isLoading`, `error`, `language`),
the send state machine Idle → Sending → Idle or Idle+error, the mapping of a
settled HTTP exchange to `{error}` or `{message, quickReplyOptions}`, the
conversion of `messages` to the `chat_history` of a request, and the
bilingual welcome with its fallback to English.

Modules, one per concern of the single source file:

- `JsText` (`js_text.dfy`): the JavaScript string behaviour the widget relies
  on — `trim` with ECMAScript's white-space and line-terminator set, and the
  decimal rendering of a status code inside a template literal, with its
  reading back.
- `ChatApi` (`chat_api.dfy`): the request/response contract of `sendToAPI`.
  `fetch` is replaced by an `HttpOutcome` value: the call rejected, or a
  response arrived with a status and a body that is unparsable, the JSON
  value `null`, or a JSON value whose `detail`, `answer` and
  `quick_reply_options` may be missing. The JavaScript `||` defaults are reproduced, including that an
  empty `detail` or `answer` counts as missing.
- `Welcome` (`welcome.dfy`): the locale table and `welcomeMessages[language] || welcomeMessages.en`.
- `ChatWidget` (`chat_app.dfy`): the class. `sendMessage` awaits once, so it
  is split at the await: `BeginSend` is everything before it, including the
  request `sendToAPI` builds before calling `fetch`; `CompleteSend` is
  everything after, given how the awaited call settled (`Settlement`).
  Between the two, other handlers may run (a quick-reply click, a language
  change, the error banner's close button). Of the DOM the class keeps only
  the value of the input box (`input`) and the message bubbles the container
  shows (`shown`).

The model follows the code as written. `addMessage` only renders a bubble;
nothing ever appends to `this.messages`, whose only assignments are `[]`
(script.js:4, 49, 200). `ChatApp.Valid()` therefore includes `messages == []`.
`sendToAPI` builds `chat_history` from `this.messages` (script.js:96-99), and
the language handler resets a lone welcome (script.js:47-50), so two
consequences are proved: every request carries an empty `chat_history`
(`BeginSend`, `TwoTurns`), and switching language never replaces the welcome
already on screen (`ChangeLanguage`, `SwitchAfterWelcome`). `Valid()` also
records that an error can only be present once loading is over.

The catch branch of `sendMessage` cannot be reached through `sendToAPI`,
which catches everything itself; `Settlement.Threw` stands for anything else
in that `try` block throwing, and is handled as the code handles it.

## Model

| member | source | states |
|---|---|---|
| `JsText.TrimStart` | script.js:62 | the result is the longest suffix of the input that does not start with white space; everything dropped is white space |
| `JsText.TrimEnd` | script.js:62 | the result is the longest prefix of the input that does not end with white space; everything dropped is white space |
| `JsText.Trim` | script.js:62 | the trimmed text neither starts nor ends with white space and is no longer than the input |
| `JsText.TrimIsSlice` | script.js:62 | the trimmed text is a contiguous slice of the input with only white space before and after it |
| `JsText.TrimEmptyIff` | script.js:62-63 | the trimmed input is empty (the send guard fires) exactly when the input is all white space |
| `JsText.TrimIdempotent` | script.js:62 | trimming an already trimmed text changes nothing |
| `JsText.Decimal` | script.js:121 | the status is rendered as a non-empty string of digits without a leading zero |
| `JsText.DecimalRoundTrip` | script.js:121 | reading the rendered digits back gives the status |
| `JsText.DecimalInjective` | script.js:121 | distinct statuses render differently |
| `ChatApi.RoleOf` | script.js:97 | the role is `'user'` exactly when the message type is `'user'`, otherwise `'assistant'` |
| `ChatApi.ToHistory` | script.js:96-99 | the history has one entry per message, in order, with the message text as content and the role rule above |
| `ChatApi.HistoryOfConcat` | script.js:96-99 | the history of a concatenation is the concatenation of the histories |
| `ChatApi.ServerError` | script.js:119-122 | a non-empty `detail` is the error; a missing, empty or unparsable one gives `"Server error: "` followed by the status; the error is never empty |
| `ChatApi.ServerErrorNamesStatus` | script.js:121 | the synthesized error is the prefix followed by digits that read back as the status |
| `ChatApi.Classify` | script.js:107-133 | a rejected fetch, an unparsable ok body, or a `null` body with any status (reading a member of it throws) gives exactly the connection error; any other non-ok response gives the server error; an ok JSON body gives `answer` or `""` and `quick_reply_options` or `[]`; an error is never empty |
| `ChatApi.ClassifyFailsIff` | script.js:119-133 | the result is an error exactly when the fetch rejected, the status is not 2xx, or the body is unparsable or `null` |
| `ChatApi.ClassifyExamples` | script.js:119-133 | 200 with `answer "hi"` and options `a`, `b` gives that answer and those options in order; 500 with `detail "boom"` gives `"boom"`; 500 without a body gives `"Server error: 500"`; 500 with a `null` body gives the connection error; a rejected fetch gives the connection error |
| `Welcome.SelectGreeting` | script.js:206-217 | German for `'de'`, English for `'en'` and for every other code; always a non-empty text and three quick replies |
| `Welcome.WelcomeMessage` | script.js:217-218 | the welcome is an assistant message whose text and quick replies are the German ones exactly for `'de'` and the English ones otherwise |
| `Welcome.WelcomeDependsOnlyOnGerman` | script.js:206-218 | two codes give the same welcome exactly when both or neither are `'de'` |
| `ChatWidget.Completion` | script.js:74-89 | a throw in the `try` block is the connection error; otherwise the classified result is acted on; an error is never empty, so the truthiness test on it is exact |
| `ChatWidget.ChatApp.constructor` | script.js:3-7 | starts with no messages, not loading, no error, language `'en'` |
| `ChatWidget.ChatApp.AddMessage` | script.js:136-166 | appends one bubble to what is shown and leaves `messages` alone |
| `ChatWidget.ChatApp.SetLoading` | script.js:176-186 | sets `isLoading` and nothing else of the state |
| `ChatWidget.ChatApp.ShowError` | script.js:188-192 | sets `error` to the message and nothing else of the state |
| `ChatWidget.ChatApp.ClearError` | script.js:194-197 | sets `error` to null and nothing else of the state |
| `ChatWidget.ChatApp.AddWelcomeMessage` | script.js:205-219 | appends the welcome of the current language |
| `ChatWidget.ChatApp.BeginSend` | script.js:62-72 | a request starts exactly when the trimmed input is non-empty and none is in flight; then the trimmed text is shown as a user bubble, the input is emptied, loading starts, the error is cleared, and the request carries the text, an empty history and the language; otherwise nothing changes |
| `ChatWidget.ChatApp.CompleteSend` | script.js:74-89 | loading ends whatever the settlement; an error result or a throw sets the error and shows nothing; an answer is shown as one assistant bubble with its quick replies in order and the error stays null |
| `ChatWidget.ChatApp.ClickQuickReply` | script.js:160-163 | the reply replaces the input and the send guard applies to it; when blocked, the reply stays in the input |
| `ChatWidget.ChatApp.ChangeLanguage` | script.js:42-51 | the language always changes; the conversation is reset to the new welcome only when `messages` is one assistant message, which from a valid state never happens |
| `ChatWidget.ChatApp.ClearChatHistory` | script.js:199-203 | empties `messages` and leaves only the welcome of the current language on screen |
| `ChatWidget.LoadPage` | script.js:277-296 | after page load the widget shows the English welcome, idle and without error |
| `ChatWidget.SwitchAfterWelcome` | script.js:42-51 | switching language right after page load leaves the English welcome on screen, for every code |
| `ChatWidget.QuickReplyDuringSend` | script.js:160-163 | a quick reply clicked while a request is in flight starts no second request and leaves its text in the input |
| `ChatWidget.TwoTurns` | script.js:96-99 | after an answered first turn the second request still carries an empty history |
| `ChatWidget.OneTurn` | script.js:61-90 | one turn from a fresh page ends not loading, with either the answer shown and no error, or the error set and only the user bubble shown |

## Left out

- DOM rendering: element creation, `innerHTML` templating, timestamps, `createQuickReplies`, `classList`, `disabled` flags, scrolling and input auto-resize; only the bubbles' text, type and quick replies and the input's value are kept.
- `escapeHtml`: it depends on the browser's serialisation of `textContent` into `innerHTML`, which is not modelled.
- `fetch`, request headers, the endpoint URL and JSON encoding and decoding: replaced by the `HttpOutcome` value and the `ChatRequest` datatype.
- Non-string JSON values: `detail` and `answer` are modelled as strings or missing; a truthy non-string `detail` (for instance an array) or a non-array `quick_reply_options` is not.
- `ChatWidget.Completion`: does not model a throw after part of the `try` block has already changed the screen; a throw is taken to happen before any bubble is added.
- `Welcome.SelectGreeting`: does not model JavaScript property lookup reaching `Object.prototype` (a code such as `toString`); language codes come from the page's selector.
- The 500 ms delay before the first welcome, `console` logging and the keypress filter for Enter (it only decides whether `sendMessage` runs).
- `MockChatAPI`: its wiring is commented out, so it is never used.
- Interleavings other than handlers running between `BeginSend` and `CompleteSend`: the page has one thread and one await.
