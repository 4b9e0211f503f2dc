# Chat front end: persona catalogue and send logic

This project models the logic-bearing core of a conversational assistant front end. The user talks to a remote chat-completion model under one of three personas: product assistant, financial expert or stock expert. Two pieces are modelled:

- **Persona lookup** (`Modes`, from `src/data/modes.js`). `GetModeConfig` maps a mode identifier to a display name, a system prompt and a theme colour. `'stock'` and `'finance'` select fixed expert prompts. `'product'` and every other string fall through to the product assistant, whose prompt is built from a product catalogue. That catalogue formatter, `getSystemPromptWithProducts()`, lives in a file that is not part of this model. Its value is passed in as the parameter `productPrompt`, so every statement about the product persona holds for any catalogue text.
- **Send and display logic of the Chat component** (`Chat`, from `src/Chat.jsx`):
  - `handleSend` with its `trim()` guard.
  - The Enter / Shift+Enter rule.
  - The clear and mode-change handlers.
  - The `displayMessages` filter.

  The component is the class `Chat.ChatView`. The fields `inputValue` and `apiKey` are its local state. `messages` and `mode` are the store snapshot of the current render. `dispatched` is the log of actions handed to Redux's `dispatch`, in call order.

  Each handler is specified against pure functions:
  - `SendEffects` gives the actions one send dispatches.
  - `InputAfterSend` gives the box's new value.
  - `DisplayMessages` gives the transcript.

  The lemmas state what the source promises about those functions.
- **`trim`** (`JsString`). This module models JavaScript's `String.prototype.trim`: it strips ECMAScript WhiteSpace and LineTerminator code points from both ends. It decides when a send is a no-op: exactly when the input is empty or made only of such code points.

Three details follow the code:
- `handleSend` builds the outgoing history from the `messages` snapshot of the render that created the handler, not from the store after `addUserMessage`. The model does the same: the handlers never change `messages`, and only `Rerender` replaces it.
- The appended and sent content is the untrimmed input.
- `handleSend` never reads `status`.

Two client methods, `Chat.TypeAndPressEnter` and `Chat.SendAfterRerender`, are usage examples of `ChatView` and model no source lines. The first shows that Enter sends and empties the box, and that Enter on the empty box or Shift+Enter adds nothing. The second shows that a send after a re-render carries the grown history.

## Model

| member | source | states |
|---|---|---|
| Modes.GetModeConfig | src/data/modes.js:9-48 | Total on every string. The result is one of exactly three whole records: the stock persona, the finance persona, or the product persona carrying the catalogue prompt. |
| Modes.StockConfig | src/data/modes.js:11-25 | `'stock'` gives name "Stock Expert", colour "#cf1322" and the fixed stock prompt. |
| Modes.FinanceConfig | src/data/modes.js:26-39 | `'finance'` gives name "Financial Expert", colour "#faad14" and the fixed finance prompt. |
| Modes.ProductConfig | src/data/modes.js:40-46 | `'product'` gives name "Product Assistant", colour "#1890ff" and exactly the catalogue-built prompt. |
| Modes.UnknownModeFallsBack | src/data/modes.js:40-41 | A mode gets the product configuration if and only if it is neither `'stock'` nor `'finance'`. This covers strings outside MODES. |
| Modes.ModesDistinct | src/data/modes.js:3-7 | The three MODES values are pairwise distinct. |
| Modes.PersonasDistinct | src/data/modes.js:13-45 | Two known modes share a name, or share a theme colour, exactly when they are the same mode. |
| Modes.ExpertPromptsIgnoreCatalogue | src/data/modes.js:14-37 | The stock and finance configurations are the same whatever the product catalogue prompt is. |
| Modes.ProductPromptIsCatalogue | src/data/modes.js:40-44 | For every mode that falls through, the system prompt is the catalogue prompt. |
| Modes.ExpertPromptsEndWithRiskNotice | src/data/modes.js:23-37 | The stock prompt ends with its risk-notice sentence in double quotes, and so does the finance prompt. |
| JsString.IsTrimmable | src/Chat.jsx:35 | The code points `trim()` strips: ECMAScript WhiteSpace (TAB, VT, FF, ZWNBSP, the Zs space separators) and LineTerminator (LF, CR, LS, PS). Its meaning for trim is stated by TrimStart, TrimEnd and TrimEmptyIff. |
| JsString.TrimStart | src/Chat.jsx:35 | The result is a suffix of the input. Every dropped code point is trimmable, and the result does not start with a trimmable one. |
| JsString.TrimEnd | src/Chat.jsx:35 | The result is a prefix of the input. Every dropped code point is trimmable, and the result does not end with a trimmable one. |
| JsString.Trim | src/Chat.jsx:35 | `s.trim()` is `s` with its trimmable ends removed: the result is a segment `s[i..i+\|r\|]` with only trimmable code points before and after it, and a non-empty result neither starts nor ends with a trimmable code point. |
| JsString.TrimSegment | src/Chat.jsx:35 | Trimming the end of the start-trimmed string leaves the segment of `s` at the start-trim offset, with only trimmable code points around it. |
| JsString.TrimEmptyIff | src/Chat.jsx:35 | `s.trim()` is empty if and only if every code point of `s` is whitespace or a line terminator. |
| JsString.TrimKeepsInner | src/Chat.jsx:35 | A string whose first and last code points are not trimmable is left unchanged by trim. |
| Chat.IsBlank | src/Chat.jsx:35 | `!inputValue.trim()` holds exactly when every code point of the input is trimmable (this includes the empty input). |
| Chat.OutgoingHistory | src/Chat.jsx:38 | The history sent has length `\|messages\|+1`, has `messages` as a prefix, and ends with the user entry holding the untrimmed input. |
| Chat.SendEffects | src/Chat.jsx:35-39 | The actions of one send are empty exactly when the input is all trimmable. Otherwise there are two: `addUserMessage(input)`, then `sendMessage` with the outgoing history and the current API key. |
| Chat.InputAfterSend | src/Chat.jsx:35-40 | The input is kept as typed when it is all trimmable and becomes empty otherwise. |
| Chat.BlankSendDoesNothing | src/Chat.jsx:35 | A whitespace-only or empty input dispatches nothing and leaves the input unchanged. |
| Chat.NonBlankSendEffects | src/Chat.jsx:37-40 | Any other input dispatches exactly two actions. First `addUserMessage(input)`, then `sendMessage` with `messages ++ [user(input)]` and the current API key. The input becomes empty. |
| Chat.SendDispatchesIff | src/Chat.jsx:35-40 | A send dispatches something if and only if the input has a code point that trim keeps; after such a send the input is empty. |
| Chat.TriggersSend | src/Chat.jsx:322 | The key-down condition `e.key === 'Enter' && !e.shiftKey`; its truth table is stated by EnterRule. |
| Chat.EnterRule | src/Chat.jsx:321-326 | Enter without Shift triggers a send. Enter with Shift, and every other key, does not. |
| Chat.DisplayMessages | src/Chat.jsx:90 | The transcript holds no system entry and is no longer than the history. An entry is in it if and only if it is a non-system entry of the history. |
| Chat.DisplayCounts | src/Chat.jsx:90 | Each non-system entry occurs in the transcript as many times as in the history, and system entries occur zero times. |
| Chat.DisplayIsSubsequence | src/Chat.jsx:90 | The transcript is an order-preserving subsequence of the history. |
| Chat.DisplayIdentityIff | src/Chat.jsx:90 | The transcript equals the history if and only if the history has no system entry. |
| Chat.DisplayAppend | src/Chat.jsx:90 | Filtering distributes over concatenation of histories. |
| Chat.OutgoingTranscript | src/Chat.jsx:38-39 | The transcript of the outgoing history is the current transcript followed by the new user entry. |
| Chat.ChatView.constructor | src/Chat.jsx:16-21 | A fresh component has an empty input box, the stored API key, the store snapshot and no dispatched actions. |
| Chat.ChatView.CurrentConfig | src/Chat.jsx:24 | The header's whole configuration equals the product persona's if and only if the store mode is neither `'stock'` nor `'finance'`. |
| Chat.ChatView.Transcript | src/Chat.jsx:90 | The rendered transcript hides every system entry and keeps every non-system entry of the snapshot, as often as it occurs there and in the same order. |
| Chat.ChatView.Rerender | src/Chat.jsx:21 | A re-render replaces the `messages` and `mode` snapshot and keeps the input, the key and the log. |
| Chat.ChatView.SetInput | src/Chat.jsx:320 | Typing replaces the input value. |
| Chat.ChatView.SetApiKey | src/Chat.jsx:121 | Editing the settings field replaces the API key. |
| Chat.ChatView.HandleSend | src/Chat.jsx:34-41 | The log grows by exactly `SendEffects` of the input at call time, and nothing else changes except the input. The input becomes `InputAfterSend` of its old value. |
| Chat.ChatView.OnKeyDown | src/Chat.jsx:321-326 | Only a plain Enter prevents the default action and runs the send; any other key changes nothing. |
| Chat.ChatView.HandleClear | src/Chat.jsx:52-54 | Dispatches `clearHistory()` and nothing else. |
| Chat.ChatView.HandleModeChange | src/Chat.jsx:56-58 | Dispatches `switchMode(key)` with the menu item's key and nothing else. |

## Left out

- Rendering is not modelled, because it holds no stateable logic: the antd layout, icons, animations, markdown rendering, the heart background, and the scroll-to-bottom effect (src/Chat.jsx:26-32, 92-355).
- `handleSaveSettings` and the initial `localStorage.getItem` are not modelled, because they are browser storage I/O. The stored key enters the model as a constructor argument.
- The chat store (`features/chat/chatSlice`) is not part of this model. Its reducers, the asynchronous `sendMessage` request, the loading status and the history reset on mode switch are therefore not modelled, and nor is any guard against a second send while a reply is pending. `dispatch` is only an append to the action log.
- `products.js` is not part of this model. Its `getSystemPromptWithProducts()` is an opaque string supplied as `productPrompt`.
- When the component re-renders is not modelled: the store's reducers are outside the model, so a caller of `Rerender` supplies the new snapshot.
- Concurrency and the order in which asynchronous replies complete are not modelled, because no such code is visible.
- JsString.IsTrimmable lists the Unicode space separators (category Zs) by hand, as of Unicode 15. A JavaScript engine built on a later Unicode version may treat more code points as whitespace.
- Lone UTF-16 surrogates cannot be expressed. A Dafny `string` holds Unicode scalar values, while a JavaScript string is a sequence of UTF-16 code units and may contain an unpaired surrogate. No trimmable code point is a surrogate, so on every string the model can express, trim, the send guard and the filter behave as in the source.
