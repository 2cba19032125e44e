# Telegram-to-Bedrock bot: classifier and message handler

A Dafny model of the decision logic of a Telegram bot that forwards chat
messages to an Anthropic model on Amazon Bedrock and keeps a per-chat
conversation history.

- `js_strings.dfy` (module `JsStrings`) models the JavaScript string
  built-ins the bot relies on. Strings are sequences of UTF-16 code units.
  It covers `substring` (clamping to `[0, length]`, then swapping), one-argument
  `slice`, `startsWith`, `Array.prototype.join`, `trim`, truthiness and
  template substitution of `undefined`.
- `telegram.dfy` (module `Telegram`) models `extractUser` and
  `extractContent` as pure functions. A Telegram message becomes a
  classification: an extraction (command, forwarded text, photo,
  `shouldReply`), `undefined` when the chat-type switch has no case, or a
  TypeError when the code reads a property of `undefined`.
- `message.dfy` (module `MessageHandler`) models `aggregateMessages` and
  `handler`. The history store is a class holding a map from chat id to
  turns. The message's photo array is a class that `shift` consumes in
  place. `downloadImage`, `limitHistory` and the Bedrock call are function
  parameters. `RouteOf` is the handler's branching. `Handled` says what a
  call returns and saves. The `Handler` method is proved to do exactly that.
- `wrappers.dfy` holds `Option` (a possibly `undefined` value) and `Result`.

Behaviour of the code worth knowing, which the model keeps:
- the code has no reply for unsupported commands: a private `/foo` is
  forwarded to the model like any other text;
- it appends nothing to the user's text, picks no model tier and never
  strips images from the history it sends;
- how much history is sent is left entirely to `limitHistory`;
- `/start` and group creation replace the conversation sent, and the
  history saved, with the introduction turn and its answer;
- a chat type outside the switch sends an empty conversation: the chat's
  history is replaced by `limitHistory([])`, and the reply is appended only
  when that list is non-empty. For a limit that keeps `[]` empty, the
  history is erased and the reply is not saved;
- the handler forwards `message.text` (src/message.mjs:52) and never the
  caption. A captioned photo in a private chat therefore gets no text
  block. In a supergroup it gets the text block `Name: undefined`.

## Model

| member | source | states |
|---|---|---|
| JsStrings.Clamp | src/lib/telegram.mjs:49 | `substring` forces each index into `[0, length]`: negative to 0, past the end to the length |
| JsStrings.Substring | src/lib/telegram.mjs:60 | `substring(a, b)` is the slice between the clamped indices, in either argument order, never longer than the string |
| JsStrings.SubstringFrom | src/lib/telegram.mjs:50 | `substring(a)` is the suffix from `a`, empty past the end, the whole string for a negative start |
| JsStrings.SubstringSymmetric | src/lib/telegram.mjs:60 | swapping the two indices of `substring` gives the same string |
| JsStrings.SubstringSplit | src/lib/telegram.mjs:49-50 | `substring(0, n) + substring(n)` is the whole string for every `n`, and the first part is the clamped prefix |
| JsStrings.Slice | src/message.mjs:74 | `slice(start)` is the suffix from `start`, counting back from the end when negative, empty past the end |
| JsStrings.Literal | src/message.mjs:60 | a source literal becomes one code unit per character, with the same value |
| JsStrings.Interpolate | src/lib/telegram.mjs:92 | `${s}` is `s` itself, or the word `undefined` when `s` is absent |
| JsStrings.TrimStart | src/message.mjs:125 | the longest suffix that does not start with white space; everything dropped is white space |
| JsStrings.TrimEnd | src/message.mjs:125 | the longest prefix that does not end with white space; everything dropped is white space |
| JsStrings.Trim | src/message.mjs:125 | `trim`: never longer than its input, with no white space left at either end; `TrimIsCore` shows it is the input's core |
| JsStrings.IsWhiteSpace | src/message.mjs:125 | the ECMAScript WhiteSpace and LineTerminator code units `trim` removes; `TrimStart`, `TrimEnd` and `TrimIsCore` are stated over it |
| JsStrings.Truthy | src/lib/telegram.mjs:28 | JavaScript truthiness of a possibly undefined string: defined and non-empty; `ExtractUser`, `UserTurn` and `AnthropicVersion` state each use |
| JsStrings.StartsWith | src/message.mjs:57 | `startsWith` as a prefix test; used by `RouteOf`, whose contract states each command test |
| JsStrings.MaybeStartsWith | src/message.mjs:57-87 | `text?.startsWith(p)` read as a condition: false when the text is `undefined`; `RouteOf`'s contract states each use |
| JsStrings.Join | src/message.mjs:107 | `join` of one part is that part and of none is empty; `JoinSnoc` and `JoinFive` give the layout of longer lists |
| JsStrings.TrimIsCore | src/message.mjs:125 | `trim` returns a contiguous piece of its input with only white space outside it; with `Trim`'s own contract (none at its two ends) this fixes the result |
| JsStrings.TrimStartIgnoresLeadingSpace | src/message.mjs:125 | white space in front of a string does not change what trimming leaves |
| Telegram.Labelled | src/lib/telegram.mjs:50 | `${user}: ${s}` is the name, then `": "`, then `s`, and both parts can be read back |
| Telegram.ExtractUser | src/lib/telegram.mjs:26-32 | the first name alone when the last name is absent or empty, otherwise first name, one space, last name |
| Telegram.EffectiveText | src/lib/telegram.mjs:37-43 | the caption when a photo is attached, the text otherwise; `CaptionReplacesText` proves the other field plays no part |
| Telegram.EffectiveEntities | src/lib/telegram.mjs:39-42 | the caption entities when a photo is attached, the text's otherwise; `CaptionReplacesText` and `OnlyFirstEntityMatters` are about it |
| Telegram.LeadsWith | src/lib/telegram.mjs:45 | `entities?.[0].type === kind` for an absent or non-empty list; the empty list is `ExtractContent`'s TypeError case |
| Telegram.MentionedIdentity | src/lib/telegram.mjs:60 | the compared span is `substring(offset + 1, length)`; for a mention at offset 0 it is the name after the `@` |
| Telegram.WithoutMention | src/lib/telegram.mjs:63 | the text with code units `[offset, offset + length + 1)` removed and the rest kept in order |
| Telegram.ExtractContent | src/lib/telegram.mjs:34-97 | the caption and its entities replace the text and its entities when a photo is attached. A message without a sender, an empty entity list, or a command or mention without text, throws. The result is `undefined` exactly when there is neither a leading command nor a leading mention and the chat type is outside the switch, so every command and mention with text is classified. A command is the prefix of clamped length `length + 1` and, with the forwarded text after the sender's name, rebuilds the text. A mention of the bot is answered with the mention removed. Any other mention is kept with its text unchanged and not answered. With no leading command or mention: `private` forwards the text exactly and answers; `group` yields only `shouldReply: false`; `supergroup` forwards name and text without answering; any other chat type yields nothing. The photo is passed on unchanged or not at all |
| Telegram.ShouldReplyCases | src/lib/telegram.mjs:34-95 | a message is classified exactly when it has a sender and a non-empty entity list, its leading command or mention has text, and otherwise its chat type is handled. A classified message is answered exactly when it is a command, a mention of the bot, or a private message with no leading mention |
| Telegram.CaptionReplacesText | src/lib/telegram.mjs:37-43 | with a photo attached, the text and entities do not matter; without one, the caption and caption entities do not |
| Telegram.OnlyFirstEntityMatters | src/lib/telegram.mjs:39-57 | the entities after the first classified one (of the caption when a photo is attached, of the text otherwise) never change the classification |
| Telegram.IntendedMentionedIdentity | src/lib/telegram.mjs:60 | the corrected span `[offset + 1, offset + length)` is the username after the `@` |
| Telegram.IntendedMentionRecognisesBot | src/lib/telegram.mjs:60-62 | with the corrected span, `@bot` is recognised at any position in the text |
| Telegram.MentionAtStartAsIntended | src/lib/telegram.mjs:60 | for a mention at offset 0 the written span and the corrected one coincide |
| Telegram.MentionAfterStartIsMissed | src/lib/telegram.mjs:60-75 | in "hi @bot" the written span is empty, so a private message addressing the bot is not answered |
| MessageHandler.HistoryStore.Load | src/message.mjs:14 | the turns stored for the chat, or none for a chat never saved |
| MessageHandler.HistoryStore.Save | src/message.mjs:134 | the chat's stored turns are replaced, every other chat keeps its own |
| MessageHandler.Shifted | src/message.mjs:23 | `shift` leaves the list without its first element, and an empty list empty |
| MessageHandler.PhotoList.Shift | src/message.mjs:23 | removes and returns the first size variant, or returns `undefined` and leaves an empty list alone |
| MessageHandler.TextContent | src/message.mjs:35-38 | a plain turn's content is the text, or `undefined` exactly when there is none |
| MessageHandler.UserTurn | src/message.mjs:15-38 | a user turn; with an image, the image block comes first and one text block follows exactly when the text is truthy |
| MessageHandler.Aggregated | src/message.mjs:12-41 | exactly one user turn is appended after the loaded history, which is unchanged and keeps its order. The turn has blocks exactly when there is a photo; then it is `UserTurn` of the text and the first variant's download (the image block, then the text block when the text is truthy). An empty photo list throws, and a failed download rejects |
| MessageHandler.AggregateMessages | src/message.mjs:12-41 | returns `Aggregated` for the stored history; the photo list loses exactly its first element |
| MessageHandler.RouteOf | src/message.mjs:55-95 | `/start` or group creation comes before `/help`, which comes before the chat-type switch. A group without `/chat` is ignored. Private chats forward the text exactly. `/chat` forwards name plus `slice(6)`, in a group and in a supergroup when the message is not a mention. A supergroup mention forwards name plus the text without the mention. Other chat types fall through. `send` is false only for a plain supergroup message, which forwards name plus text |
| MessageHandler.AnthropicVersion | src/message.mjs:8 | the configured version when set and non-empty, `bedrock-2023-05-31` otherwise |
| MessageHandler.JoinElement | src/message.mjs:107 | `join` renders an absent system prompt as the empty string |
| JsStrings.JoinCons | src/message.mjs:107 | `join` of a part followed by a non-empty list is that part, the separator, then the join of the list |
| JsStrings.JoinFive | src/message.mjs:107 | joining five strings puts the separator between each neighbouring pair, in order |
| MessageHandler.SystemPromptLayout | src/message.mjs:99-107 | the system string is the system prompt, user context, timestamp context, guardrail and response context, in that order, joined with `". "` |
| MessageHandler.SystemPrompt | src/message.mjs:99-107 | the `system` field; `SystemPromptLayout` proves its layout |
| JsStrings.JoinSnoc | src/message.mjs:125 | joining one more part appends the separator and that part |
| MessageHandler.Reduced | src/message.mjs:125 | the `reduce` with `''` as the start: empty for no content, otherwise a leading space and the last text at the end |
| MessageHandler.ResponseText | src/message.mjs:125 | `responseText`: empty for no content and never with white space at either end; `ResponseTextIsTrimmedJoin` gives it exactly |
| MessageHandler.ReducedIsSpaceJoined | src/message.mjs:125 | the `reduce` over the content texts is a space followed by the texts joined with single spaces |
| MessageHandler.ResponseTextIsTrimmedJoin | src/message.mjs:125 | the reply text is the content texts joined with single spaces, then trimmed |
| MessageHandler.RequestFor | src/message.mjs:104-109 | the request carries the resolved version, the token limit, the system string and exactly the limited messages |
| MessageHandler.WithAnswer | src/message.mjs:126-131 | the assistant turn with the reply text is appended exactly when the limited list is non-empty |
| MessageHandler.Completed | src/message.mjs:97-139 | limit, ask the model, push the answer, save: something is saved exactly when the call succeeds, a failure is the model call's, `send` is passed through, and what is saved ends with the reply unless the limited list is empty; `RejectedInvocationSavesNothing` and `CompletedWhenAnswered` give both outcomes exactly |
| MessageHandler.RejectedInvocationSavesNothing | src/message.mjs:111-134 | a rejected model call fails with `InvocationFailed` and saves nothing |
| MessageHandler.Conversed | src/message.mjs:67-93 | the conversation path: a rejected aggregation is the outcome with nothing saved, otherwise the aggregated list is completed; `AggregationFailureSavesNothing` and `ConverseCompletesAggregated` state both halves for `Handled` |
| MessageHandler.AggregationFailureSavesNothing | src/message.mjs:12-41 | on the conversation path, an empty photo list (TypeError) or a failed download rejects the call with that failure, and nothing is saved |
| MessageHandler.Routed | src/message.mjs:57-95 | the outcome of each route: help text, `{send: false}`, TypeError, or completion of `[intro]`, `[]` or the aggregated list; `HelpCallsNothing`, `GroupIgnoresPlainMessages`, `CrashSavesNothing`, `IntroductionReplacesHistory`, `UnroutedCompletesNothing` and `ConverseCompletesAggregated` state each case through `Handled` |
| MessageHandler.CrashSavesNothing | src/message.mjs:82-85 | a supergroup message with an empty entity list, or a mention without text, rejects with a TypeError and saves nothing |
| MessageHandler.UnroutedCompletesNothing | src/message.mjs:68-97 | a chat type outside the switch limits and completes the empty list with `send` true, so the chat's history is replaced by `limitHistory([])`, with the reply appended only when that list is non-empty |
| MessageHandler.UnroutedErasesHistory | src/message.mjs:97-134 | with a limit that keeps `[]` empty and an answering model, a chat type outside the switch replies with the response text and saves the empty list, erasing the chat's history without recording the reply |
| MessageHandler.Introduces | src/message.mjs:57 | the text starts with `/start`, or the message reports a newly created group; `RouteOf` and `IntroductionReplacesHistory` state what it decides |
| MessageHandler.UserContext | src/message.mjs:99 | the user-context sentence ending with the user's name; its place in the prompt is proved by `SystemPromptLayout` |
| MessageHandler.DateTimeContext | src/message.mjs:100 | the timestamp sentence with the given timestamp and ` UTC+0`; its place in the prompt is proved by `SystemPromptLayout` |
| MessageHandler.Handled | src/message.mjs:51-140 | the handler's outcome: `Routed` on `RouteOf`; `SavedEndsWithReply`, `HelpCallsNothing`, `IntroductionReplacesHistory`, `GroupIgnoresPlainMessages`, `WithheldOnlyWithoutAddress` and `SavedHistoryExtendsLoaded` are proved about it |
| MessageHandler.HistoryReadOnlyToConverse | src/message.mjs:57-95 | outside the conversation path, the stored history and the photo make no difference to the outcome |
| MessageHandler.HelpCallsNothing | src/message.mjs:62-66 | `/help` returns the help text with `send` true, saves nothing, and no collaborator affects it |
| MessageHandler.IntroductionReplacesHistory | src/message.mjs:57-61 | `/start` or group creation sends exactly the introduction turn (before limiting), whatever the history |
| MessageHandler.GroupIgnoresPlainMessages | src/message.mjs:72-79 | a group message without `/chat` returns `{send: false}` and saves nothing |
| MessageHandler.WithheldOnlyWithoutAddress | src/message.mjs:55-93 | a successful reply has `send` false only for a group message without `/chat`, or a supergroup message that is neither a mention nor `/chat` |
| MessageHandler.SavedEndsWithReply | src/message.mjs:125-134 | nothing is saved when the call rejects; what is saved is empty or ends with the assistant turn holding exactly the returned text |
| MessageHandler.ConverseCompletesAggregated | src/message.mjs:67-97 | on the conversation path, the aggregated history is what is limited and sent |
| MessageHandler.CompletedWhenAnswered | src/message.mjs:97-139 | when the model answers, the reply is the response text, and the limited list with the answer is saved |
| MessageHandler.SavedHistoryExtendsLoaded | src/message.mjs:70-134 | with a limit that keeps the conversation whole and an answering model, the reply is the response text and exactly the aggregated conversation plus the assistant turn is saved: the loaded history, the new user turn, then the reply |
| MessageHandler.Complete | src/message.mjs:97-139 | limits, asks the model, appends the answer and saves, exactly as `Completed` says; a rejected call saves nothing |
| MessageHandler.Respond | src/message.mjs:67-93 | aggregates and completes, exactly as `Conversed` says; the photo list loses exactly its first element |
| MessageHandler.Dispatch | src/message.mjs:57-139 | runs the path of the route, exactly as `Routed` says; the photo list is consumed only on the conversation path |
| MessageHandler.Handler | src/message.mjs:51-140 | returns and saves exactly what `Handled` says for the stored history; the photo list is consumed only on the conversation path |

## Left out

- `downloadImage` (src/lib/telegram.mjs:9-24) is not modelled: two HTTP requests and base64 encoding. It is the `download` parameter, which may fail.
- The Bedrock client, `InvokeModelCommand`, and JSON serialisation and parsing are not modelled. The model call is the `invoke` parameter: it returns the texts of the response's content blocks, or fails. A content block without `text` (which JavaScript would render as "undefined") is not represented.
- `src/lib/history.mjs` is not part of this model. `loadHistory` and `saveHistory` act on a map held by the store. Loading a chat with no entry gives no turns. `limitHistory` is the `limit` parameter, and no policy is assumed for it.
- MessageHandler.HistoryStore.Load: never fails. In the handler, a rejected `loadHistory` (src/message.mjs:14) would reject the call, and the model does not capture this.
- MessageHandler.HistoryStore.Save: never fails. A rejected `saveHistory` (src/message.mjs:134) would reject the handler after the model has answered, and the model does not capture this.
- `console.log` calls are left out.
- Environment variables are the `Config` value. `parseInt(process.env.MAX_TOKENS || '100')` (src/message.mjs:9) is not modelled: `Config.maxTokens` is the value after the `'100'` default and the parse.
- `new Date().toLocaleString()` is not modelled; the timestamp is a parameter.
- `TELEGRAM_BOT_ID` is the `botId` parameter of `ExtractContent`.
- src/completion.mjs and src/shouldReply.mjs are not part of this model. The first is a single model call. The second only projects `shouldReply` out of `extractContent`.
- Promises and `await` are not modelled. The calls happen in the order the code awaits them, with nothing in parallel.
- JsStrings.Literal: only encodes literals made of Basic Multilingual Plane characters, because every literal of the bot is ASCII.
- MessageHandler.Handler: the reply is not sent to Telegram here; `send` is only returned, as in the code.
- MessageHandler.Handler: event fields other than the message, the chat id and `user` are not modelled.

## Findings

| source | as written | input that shows it | evidently intended | confidence | as-written member | corrected member |
|---|---|---|---|---|---|---|
| src/lib/telegram.mjs:60 | the mentioned name is `text.substring(offset + 1, length)`, which ends at the entity's length rather than at its end | private message "hi @bot" with a mention entity at offset 3, length 4, and bot id "bot": the span is `substring(4, 4)`, the empty string, so the bot's own mention counts as someone else's and `shouldReply` is false | `text.substring(offset + 1, offset + length)` | high; not executed | Telegram.MentionAfterStartIsMissed | Telegram.IntendedMentionRecognisesBot |

`Telegram.ExtractContent` keeps the span as written, because it models the
classifier's observable behaviour. `Telegram.IntendedMentionedIdentity`
is the corrected span. `Telegram.MentionAtStartAsIntended` shows that the
two agree for mentions at the start of the text.
