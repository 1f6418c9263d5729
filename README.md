# English conversation tutor: session and history bookkeeping

This project models, in Dafny, the stateful core of an English-conversation
tutor that talks to a text generator. It covers two parts:

- **The Express backend** (`Backend/server.js`). It keeps an in-memory `sessions`
  Map from session id to `{ history, topic }`. Four endpoints act on it: `/start`,
  `/topic`, `/message` and `/end`. `/topic` picks a prompt from `customTopic` and
  `difficulty`, asks the generator, and replaces the history with exactly one
  (user, model) exchange. `/message` asks the generator for a grammar verdict and
  then for a reply. It classifies the trimmed verdict by a case-insensitive
  comparison with `"perfect"`, and appends exactly one exchange.
- **The browser-only tutor** (`English-Tutor/script.js`). It keeps a
  module-level `conversationHistory` array of `{ role, content }` entries:
  - `startNewTopic` resets the array;
  - `addMessage` and `generateContent(…, true)` both push to it;
  - every generator request is built from the array and a prompt.

The model is organised by module:

- `common.dfy`: `Option`, and `Generation`. A `Generation` is what one generator
  call yields: `Generated(text)` or `Failed`. The generator is not modelled. Each
  call's outcome is an input of the method that makes the call, and the method
  returns the requests it would have sent.
- `js_text.dfy` (`JsText`): the JavaScript string built-ins the two programs
  rely on:
  - `trim`, over ECMAScript's WhiteSpace and LineTerminator code points;
  - `toLowerCase` on ASCII letters;
  - `join('\n')`;
  - `Number#toString` of a non-negative integer.
- `server.dfy` (`Server`): the prompt templates, the prompt choice and grammar
  verdict, and the class `SessionStore`. Its field `sessions: map<string, Session>`
  is updated in place by one method per endpoint. Each method returns the
  response, reduced to its status and body.
- `tutor.dfy` (`Tutor`): the prompt templates, request construction, the
  grammar verdict, and the class `TutorPage`. Its field
  `conversationHistory: seq<Entry>` is updated by `AddMessage`,
  `GenerateContent`, `StartNewTopic` and `SendMessage`.

Prompt wording is kept exactly. A `Prompt` value names the template and the
values it interpolates, and `Prompt.Text()` is the string the template
literal evaluates to. Template literals turn the tutor file's CRLF line ends
into `\n`; the backend file has plain `\n` line ends.

Consequences the model makes explicit:

- **`/message` has no error handling.** When either generator call fails, the
  handler's promise rejects. The handler answers nothing (`Unanswered`, with no
  status) and writes nothing to the session, because both history pushes come
  after both awaited calls.
- **The tutor records every successful reply twice.** `generateContent(…, true)`
  pushes it, and then `addMessage('ai', …)` pushes it again. A correction is
  shown but never recorded, and the grammar check records nothing.
- **The two programs judge the grammar verdict differently.** The backend
  trims it first, so `" perfect\n"` gives no correction
  (`PaddedPerfectIsNoCorrection`). The tutor compares it untrimmed, so the same
  text is shown as a correction (`PaddedPerfectNeedsCorrection`).
- **A whitespace-only `customTopic` is still stored.** It selects a
  difficulty template, but `customTopic || difficulty` stores it as the
  session's topic (`BlankCustomTopicIsStored`).

`/message` catches no error: a failed generator call rejects the handler's
promise, the handler answers nothing, and the handler writes nothing to the
session. What then happens to the process is outside the model (see
"## Left out").

## Model

| member | source | states |
|---|---|---|
| `JsText.TrimStart` | Backend/server.js:93 | the front half of `trim`; `TrimStartShape` states what it removes |
| `JsText.TrimEnd` | Backend/server.js:93 | the back half of `trim`; `TrimEndShape` states what it removes |
| `JsText.Trim` | Backend/server.js:93 | `trim` yields a string that neither starts nor ends with whitespace |
| `JsText.TrimStartShape` | English-Tutor/script.js:100 | `trimStart` removes exactly a whitespace prefix, stopping at the first non-whitespace character |
| `JsText.TrimEndShape` | English-Tutor/script.js:100 | `trimEnd` removes exactly a whitespace suffix, stopping at the last non-whitespace character |
| `JsText.TrimSplits` | Backend/server.js:112 | every string is its trim with whitespace before and after it |
| `JsText.TrimEmptyIff` | English-Tutor/script.js:100-101 | the trimmed input is empty (the guard returns) exactly when the input is all whitespace |
| `JsText.TrimStripsPadding` | Backend/server.js:93 | trimming a trimmed core wrapped in whitespace gives back exactly that core |
| `JsText.TrimIdempotent` | English-Tutor/script.js:100 | trimming an already trimmed message changes nothing |
| `JsText.LowerEqualsWordIff` | Backend/server.js:98 | `toLowerCase() === w` holds exactly when the text spells `w` with any mix of capitals, with nothing around it |
| `JsText.ToLower` | Backend/server.js:98 | `toLowerCase` on ASCII capitals; `LowerEqualsWordIff` states what comparing its result with a word means |
| `JsText.JoinLines` | English-Tutor/script.js:149 | `join('\n')`; `JoinLinesSnoc` states how it grows by one line |
| `JsText.JoinLinesSnoc` | English-Tutor/script.js:149 | joining one more line with `'\n'` appends a separator and the line, and only the separator when there was something before |
| `JsText.DecimalString` | Backend/server.js:22 | `toString` of a number gives a non-empty string of digits, with no leading zero unless the number is 0 |
| `JsText.DecimalRoundTrip` | Backend/server.js:22 | reading the decimal string back gives the number: the id names the clock reading |
| `JsText.DecimalStringInjective` | Backend/server.js:22 | different clock readings give different session ids |
| `Server.Response.Status` | Backend/server.js:24-128 | unknown session is 404, failed topic generation is 500, an unanswered request has no status, everything else is 200 |
| `Server.Or` | Backend/server.js:67 | JavaScript's `or` on two string fields picks one of its operands, is truthy exactly when one of them is, and a truthy left operand wins |
| `Server.HasCustomTopic` | Backend/server.js:36 | `customTopic && customTopic.trim() !== ''`; what it means for the choice is stated by `TopicPromptChoice` and `BlankCustomTopicIsStored` |
| `Server.TopicPrompt` | Backend/server.js:36-53 | the prompt `/topic` sends; its decision table is stated by `TopicPromptChoice` |
| `Server.Prompt.Text` | Backend/server.js:38-104 | the exact text of each template literal, with the message, verdict, custom topic and level interpolated; `TopicTextsDiffer` and `ReplyTextsDiffer` show the texts tell the templates apart |
| `Server.TopicPromptChoice` | Backend/server.js:36-53 | the custom template exactly when `customTopic` is non-blank after trim, with the difficulty, or `'medium'` when it is empty or absent; otherwise exactly `'beginner'` and `'advanced'` pick their templates and any other difficulty, absent included, picks the medium one |
| `Server.TopicTextsDiffer` | Backend/server.js:38-51 | the four topic templates are four different texts, whatever the custom template interpolates |
| `Server.BlankCustomTopicIsStored` | Backend/server.js:36-67 | a whitespace-only custom topic selects a difficulty template but is still what is stored as the topic, ahead of the difficulty |
| `Server.SaysPerfect` | Backend/server.js:98 | `grammarText.toLowerCase() === 'perfect'`, which `JsText.LowerEqualsWordIff` shows is a case-insensitive match of the whole text; `Correction` and `ReplyPrompt` state its two uses |
| `Server.Correction` | Backend/server.js:119 | `correction` is `null` exactly when the trimmed verdict spells "perfect" in any case; otherwise it is that verdict verbatim |
| `Server.ReplyPrompt` | Backend/server.js:98-105 | the continue template exactly when the correction is `null`, the correct-then-continue template (quoting the verdict) exactly when it is not |
| `Server.ReplyTextsDiffer` | Backend/server.js:99-104 | the two reply templates never yield the same text |
| `Server.PaddedPerfectIsNoCorrection` | Backend/server.js:93-98 | "perfect" in any case, wrapped in any whitespace, gives no correction because the verdict is trimmed first |
| `Server.PairedIffAlternating` | Backend/server.js:63-66 | a history of (user, model) pairs is one of even length with users at even and the model at odd positions |
| `Server.PairedAppendExchange` | Backend/server.js:115-116 | appending one user turn and one model turn keeps a history paired |
| `Server.SessionStore.constructor` | Backend/server.js:18 | the table starts empty |
| `Server.SessionStore.Start` | Backend/server.js:21-25 | stores `{history: [], topic: ''}` under the decimal clock reading, overwriting that key only, and answers 200 with that id |
| `Server.SessionStore.Topic` | Backend/server.js:28-74 | an unknown id gives 404 with no change and no generation call; the one request is a user turn carrying the selected prompt; a failure gives 500 and no change; a success replaces that session's history with exactly [user: prompt, model: text], sets the topic to `customTopic`, or `difficulty` when `customTopic` is empty or absent and touches no other session; histories stay paired |
| `Server.SessionStore.Message` | Backend/server.js:78-122 | an unknown id gives 404 with no change; the grammar request is one user turn with the grammar prompt; the reply request is the old history plus one user turn whose template the trimmed verdict selects; if either call fails nothing is written and nothing answers; on success the history gains exactly [user: raw message, model: trimmed reply], the topic and every other session are unchanged, and the response carries the correction and the trimmed reply |
| `Server.SessionStore.End` | Backend/server.js:125-129 | removes the id if present, otherwise changes nothing, and always answers 200 |
| `Server.EndThenMessage` | Backend/server.js:78-129 | ending a session twice removes just that id, and a later message to it gives 404 |
| `Server.TopicTwice` | Backend/server.js:63-66 | two successful topic calls leave a history of two turns, not four |
| `Server.StartTwice` | Backend/server.js:22-23 | sessions started at different milliseconds get different ids and are both kept |
| `Tutor.Render` | English-Tutor/script.js:234 | one entry as `${role}: ${content}`, used for the request parts and the continuing prompt's history |
| `Tutor.RenderAll` | English-Tutor/script.js:233-235 | one `role: content` line per history entry, in order |
| `Tutor.RenderAllSnoc` | English-Tutor/script.js:149 | rendering a history with one more entry renders the old entries the same way |
| `Tutor.TopicPrompt` | English-Tutor/script.js:75-84 | the `difficulty` switch; its three cases are stated by `TopicPromptChoice` |
| `Tutor.Prompt.Text` | English-Tutor/script.js:77-154 | the exact text of each prompt, with the message, verdict and history text interpolated; `TopicTextsDiffer` and `ReplyTextsDiffer` show the texts tell the prompts apart |
| `Tutor.TopicPromptChoice` | English-Tutor/script.js:75-84 | exactly `'beginner'` and `'advanced'` pick their prompts; every other difficulty picks the intermediate one |
| `Tutor.TopicTextsDiffer` | English-Tutor/script.js:77-83 | the three topic prompts are three different texts |
| `Tutor.NeedsCorrection` | English-Tutor/script.js:123 | `grammarResponse.toLowerCase() !== 'perfect'` on the untrimmed verdict; `NeedsCorrectionIff` states what it accepts |
| `Tutor.NeedsCorrectionIff` | English-Tutor/script.js:123 | the correction branch is taken exactly when the untrimmed verdict does not spell "perfect" in some mix of case |
| `Tutor.PaddedPerfectNeedsCorrection` | English-Tutor/script.js:121-125 | "perfect" with any whitespace around it takes the correction branch, since nothing trims the verdict |
| `Tutor.ReplyPrompt` | English-Tutor/script.js:123-154 | the correcting template (quoting the verdict) exactly when a correction is needed, else the continuing template with the rendered history joined by newlines |
| `Tutor.ReplyTextsDiffer` | English-Tutor/script.js:128-154 | the correcting and continuing prompts never yield the same text |
| `Tutor.ContinueHistoryEndsWithMessage` | English-Tutor/script.js:147-151 | the history text of the continuing prompt already ends with the user's message, which the prompt then quotes again |
| `Tutor.RequestFor` | English-Tutor/script.js:222-237 | the prompt comes last; when `addToHistory` holds, every history entry comes before it rendered as `role: content` in order, and otherwise nothing does; the `length > 0` guard makes no difference |
| `Tutor.UserEntriesAcceptedAppend` | English-Tutor/script.js:100-104 | appending entries whose user messages are trimmed and non-empty keeps every user entry so |
| `Tutor.TutorPage.constructor` | English-Tutor/script.js:17 | the history starts empty |
| `Tutor.TutorPage.AddMessage` | English-Tutor/script.js:176 | pushes exactly `{role, content}` at the end |
| `Tutor.TutorPage.GenerateContent` | English-Tutor/script.js:221-259 | the request is built from the history before the call; the answer is pushed as one ai entry only when `addToHistory` holds and the call succeeded; a failure pushes nothing; user entries stay trimmed and non-empty |
| `Tutor.TutorPage.StartNewTopic` | English-Tutor/script.js:68-96 | the request's only context is the starting notice, followed by the difficulty's prompt; afterwards the history is exactly [notice, ai reply, ai reply] on success and [notice, system error] on failure |
| `Tutor.TutorPage.SendMessage` | English-Tutor/script.js:99-164 | blank input changes nothing and sends nothing; otherwise the grammar request has no history context; a failed check leaves [user message, system error] appended; the correction shown and the reply request are those of `ReplyToMessage` over the history ending with the user message; on success the history grows by exactly [user message, ai reply, ai reply]; user entries stay trimmed and non-empty |
| `Tutor.TutorPage.ReplyToMessage` | English-Tutor/script.js:123-163 | the correction is shown exactly when needed and never recorded; the reply request carries the whole history; success appends the reply twice, failure appends one system error entry |

## Left out

- Frontend/script.js is not part of this model. It makes HTTP calls to the backend, renders the DOM and runs speech synthesis and recognition, and holds no state beyond the session id it receives.
- The generator is not modelled: not the Gemini SDK call, `fetch`, the HTTP status test, the API key or model name, or navigation of the answer's shape (`candidates[0].content.parts[0].text`). Each call is an input that is either text or a failure. A malformed answer counts as a failure.
- `Date.now()` is a parameter (`now`) of `Start`.
- Express, `cors`, `dotenv` and `app.listen` are left out. So are the transport of status codes and the JSON bodies beyond the status and the values returned.
- Body fields that are not strings are left out, for example a numeric `sessionId` or an object `customTopic`. So is a missing `message`, which the templates would render as `undefined`. Body fields are `Option<string>` where absence matters (`difficulty`, `customTopic`) and `string` otherwise.
- Concurrency is left out. Requests run one at a time, so the model cannot show a session deleted or replaced while a handler awaits the generator. Nor can it show two tutor calls interleaving on `conversationHistory`.
- What follows a rejected `/message` handler is left out. The app installs no `unhandledRejection` handler. Under Express 4 on Node 15 or later the rejection ends the process, and the whole `sessions` Map goes with it. Under Express 5 the client gets a 500. `Server.SessionStore.Message` promises only what the handler itself does: it answers nothing (`Unanswered`), and `sessions == old(sessions)` covers only the handler's own writes.
- The DOM and speech parts of the tutor are left out: the chat display, the typing indicator, scrolling, `speakText`, the microphone button, `toggleSpeechRecognition` and the recognition callbacks. Also left out is the `system` entry the recognition error callback adds, since that callback belongs to the speech glue.
- Case mapping beyond ASCII is left out: `JsText.ToLower` maps only `A`-`Z`. This does not change either `"perfect"` test. The only non-ASCII characters that lower-case to ASCII letters are the Kelvin sign (to `k`) and the capital dotted I (to `i` plus a combining dot). Neither gives a letter of "perfect", and any other non-ASCII character keeps the text from being equal to it under both mappings.
- JsText.DecimalString: covers `Number#toString` only below 10^21, where JavaScript writes plain digits. Clock readings are far below that.
- Strings are sequences of code points rather than UTF-16 code units. This matters to no operation modelled here.

The template distinctness lemmas tell the texts apart by a character near the end of each text (`JsText.EndsLike`).
