# VetLLM chat front-end, modelled in Dafny

This project models the logic of a small veterinary chat application.

- **The `/api/chat` route** (`app/api/chat/route.ts`) formats the client's conversation into a Mistral-instruct prompt with a loop (`<s>`, `[INST] … [/INST]` around user turns, `…</s>` after assistant turns, and the last message as an instruction). It calls the hosted model once. It answers with the trimmed generated text under role `assistant`, or with a 500 body carrying a fixed `error` text and the thrown error's message as `details`.
- **The `useHuggingFaceChat` hook** (`hooks/use-huggingface-chat.ts`) holds `messages`, `input` and `isLoading`. Its `handleSubmit` guards against blank input and a pending reply, then appends the trimmed user message and, once the response is ok, an empty assistant message. A failed fetch or a response that is not ok adds only an error message. It reads the response stream chunk by chunk, splitting each chunk on `\n`. It keeps only `data: ` lines, stops at the payload `[DONE]`, skips payloads that do not parse, and appends every truthy `content` to the message with the assistant id. A stream that fails before `[DONE]` adds an error message after the assistant message.
- **The page component `VetLLMChatUI`** (`app/page.tsx`) makes titles with `generateChatTitle`. It saves the conversation on screen into the recent-chats list (`startNewChat`, `loadChat`) and loads a saved one. Its own `handleSubmit` appends the untrimmed user message and exactly one assistant message, or the "Woof!" apology.

Modules follow the files:

- `js.dfy` (`Js`) states the JavaScript built-ins the code relies on:
  - `trim`, with ECMAScript's white-space and line-terminator set;
  - `split` on one character, with its round trip through `join`;
  - `startsWith`;
  - `Number.prototype.toString` on the clock readings;
  - the shape of a thrown value.
- `route.dfy` (`ChatRoute`) models the route.
- `hook.dfy` (`HuggingFaceChatHook`) models the hook.
- `page.dfy` (`ChatPage`) models the page.

Inputs that the code receives from outside are parameters. These are the request body, the token in the environment, the provider's answer, the server's reply and its chunks, `JSON.parse`, and the clock readings `Date.now()` and `new Date()`.

State that a component updates becomes a class: `ChatHook` for the hook, `VetLLMChatUI` for the page. React's functional updates are applied one after another, in the order the handler queues them.

Each loop of the source is a method with invariants. Each method is proved against a specification function: `Prompt`, `Consume`/`Scan`, `Settled`, `RecentAfterLoad`, `AssistantText`. Lemmas then state what those functions mean, in terms of independent definitions:

- `Turns` reads the history front to back;
- `Fragments`/`FirstDone` give the content before the first `[DONE]`;
- `Without` is the order-keeping filter.

The route does not check that the last message comes from the user. The model follows the code: the last message is wrapped as an instruction whatever its role.

The route's `error` text holds four characters (U+F8FF, `ü`, `ê`, `æ`) where the paw emoji was meant. These are the emoji's UTF-8 bytes read as Mac Roman. The model keeps them as the file has them. The page's own apology has the real emoji (U+1F43E).

## Model

| member | source | states |
|---|---|---|
| ChatRoute.FormatConversation | app/api/chat/route.ts:24-37 | The loop's text is `Prompt(messages)` for a non-empty list. An empty list throws the runtime's TypeError for reading `content` of `undefined`. |
| ChatRoute.ConversationIsTurns | app/api/chat/route.ts:24-34 | After the loop has gone over some messages, its text is `<s>` followed by their turns, read independently front to back. |
| ChatRoute.TurnsAppend | app/api/chat/route.ts:27-34 | Each message contributes its turn independently: the turns of a concatenation are the turns of each part, in order. |
| ChatRoute.AppendTurnAppends | app/api/chat/route.ts:29-33 | One loop step appends exactly `[INST] c [/INST]` for a user, `c</s>` for an assistant, and nothing for any other role. |
| ChatRoute.PromptShape | app/api/chat/route.ts:24-37 | The prompt is `<s>`, then the turns of the earlier messages, then the last message as an instruction whatever its role. It starts with `<s>` and ends with ` [/INST]`. |
| ChatRoute.ChatTurns | app/api/chat/route.ts:29-33 | Keeps exactly the messages with role "user" or "assistant". |
| ChatRoute.TurnsIgnoreOtherRoles | app/api/chat/route.ts:27-34 | Messages of any other role add nothing to the prompt: dropping them leaves the turns unchanged. |
| ChatRoute.Details | app/api/chat/route.ts:83 | `details` is the `Error`'s message, or "An unknown error occurred." for any other thrown value. |
| ChatRoute.Fail | app/api/chat/route.ts:78-91 | Every caught failure gives status 500 with the fixed `error` text and those `details`. |
| ChatRoute.Answer | app/api/chat/route.ts:59-76 | Status is 200 exactly when the provider generated. The reply then has role "assistant" and content equal to the trimmed `generated_text`, or "" when it is absent. An HTTP error becomes the 500 with "Hugging Face API Error: status - text". Any other failure becomes the 500 with its own message. |
| ChatRoute.Post | app/api/chat/route.ts:7-92 | An unreadable body, a missing or empty token, a missing message list and an empty list each give the 500 and make no call. The token is checked before the list is read. Otherwise exactly one call carries `Bearer token` and the prompt. Status is 200 exactly when a call was made and generated, and 500 exactly when the body is an error body. |
| HuggingFaceChatHook.ClassifyLine | hooks/use-huggingface-chat.ts:73-83 | A line that does not start with `data: ` is ignored. Otherwise its payload is the rest after 6 characters, trimmed. `[DONE]` ends the stream, and any other payload contributes its parsed fragment. |
| HuggingFaceChatHook.FirstDone | hooks/use-huggingface-chat.ts:76-79 | The index of the first `[DONE]` line, or the number of lines when there is none. |
| HuggingFaceChatHook.ScanMeaning | hooks/use-huggingface-chat.ts:66-95 | The line loop ends with the fragments of the lines before the first `[DONE]`, concatenated in order. It is done exactly when some line is `[DONE]`. |
| HuggingFaceChatHook.ScanDoneSticky | hooks/use-huggingface-chat.ts:76-79 | Once `[DONE]` has been read, no later line changes anything. |
| HuggingFaceChatHook.StoppedAfterChunk | hooks/use-huggingface-chat.ts:66-79 | When the reader stops after a chunk, the chunks after it would have changed nothing. |
| HuggingFaceChatHook.LinesAppend | hooks/use-huggingface-chat.ts:66-71 | The lines of consecutive chunks are each chunk's own lines, in order. |
| HuggingFaceChatHook.AppendFragment | hooks/use-huggingface-chat.ts:81-92 | A payload that does not parse, or whose `content` is falsy, appends nothing. A truthy `content` is appended after the text so far. |
| HuggingFaceChatHook.AppendToIdOnly | hooks/use-huggingface-chat.ts:84-87 | The per-id update keeps the list's length and every message with another id. The message with the id gains the fragment at the end of its content. |
| HuggingFaceChatHook.AppendToIdTwice | hooks/use-huggingface-chat.ts:84-87 | Two appends to one id are one append of both fragments in order. |
| HuggingFaceChatHook.AppendToIdEmpty | hooks/use-huggingface-chat.ts:84-87 | Appending "" changes no message. |
| HuggingFaceChatHook.AppendToIdAbsent | hooks/use-huggingface-chat.ts:84-87 | Messages without the id are left as they are. |
| HuggingFaceChatHook.NotOkText | hooks/use-huggingface-chat.ts:47-51 | A non-ok response's message is the body's non-empty `error`, else "Failed to get response"; it is never empty. |
| HuggingFaceChatHook.SettledKeepsSent | hooks/use-huggingface-chat.ts:36-112 | A submission adds one message after the posted list, or two when the stream failed before `[DONE]`. The posted messages are untouched unless one of them already carries the new assistant id. |
| HuggingFaceChatHook.SettledReply | hooks/use-huggingface-chat.ts:36-112 | The message added after the posted list, case by case. A failed fetch gives the `Error`'s message or the fixed apology. A non-ok response gives the body's `error` or "Failed to get response". A response without a body gives "". A stream gives the concatenated fragments of its lines before the first `[DONE]`. |
| HuggingFaceChatHook.ChatHook.constructor | hooks/use-huggingface-chat.ts:13-15 | The hook starts with no messages, an empty input and no pending reply. |
| HuggingFaceChatHook.ChatHook.HandleInputChange | hooks/use-huggingface-chat.ts:17-19 | The input takes the typed value; nothing else changes. |
| HuggingFaceChatHook.ChatHook.ReadLines | hooks/use-huggingface-chat.ts:70-94 | The line loop over one chunk leaves the messages equal to the per-id append of the scanned text. It returns done exactly when `[DONE]` was read, and it ends loading then. |
| HuggingFaceChatHook.ChatHook.ReadStream | hooks/use-huggingface-chat.ts:64-99 | The read loop over all chunks appends `Consume(chunks).text` to the assistant message. It reports whether `[DONE]` was seen, and loading ends exactly then. |
| HuggingFaceChatHook.ChatHook.Respond | hooks/use-huggingface-chat.ts:36-112 | After the request, the messages are `Settled(...)` of the list before it. Loading ends and the input is untouched. |
| HuggingFaceChatHook.ChatHook.HandleSubmit | hooks/use-huggingface-chat.ts:21-115 | A blank input or a pending reply changes nothing. Otherwise the posted list is the old messages plus a user message with the trimmed input and id `Date.now()`. The input is cleared, the reply's messages follow as `Settled` describes, and loading ends. |
| ChatPage.GenerateChatTitle | app/page.tsx:34-37 | A message of at most 30 characters is its own title. A longer one gives its first 30 characters followed by "...", so a title is at most 33 long. |
| ChatPage.TitleIdempotent | app/page.tsx:34-37 | Titling a title gives it back. |
| ChatPage.FirstUserIndex | app/page.tsx:42 | `find` on role "user": the first user message, with no user message before it, or none at all. |
| ChatPage.ChatTitleOfFirstUser | app/page.tsx:42-43 | A saved chat's title comes from the first user message, whatever precedes it. |
| ChatPage.ChatTitleWithoutUser | app/page.tsx:42-43 | Without a user message the title is "New Consultation". |
| ChatPage.Without | app/page.tsx:81 | `filter` keeps exactly the chats with another id. |
| ChatPage.WithoutConcat | app/page.tsx:73 | `filter` keeps the relative order of the chats it keeps. |
| ChatPage.WithoutNothing | app/page.tsx:81 | Filtering a list that holds no chat with the id leaves it as it is. |
| ChatPage.WithoutIdempotent | app/page.tsx:73-81 | The second filter of `loadChat` removes nothing the first one left. |
| ChatPage.RecentAfterLoadContents | app/page.tsx:60-82 | After `loadChat`, no recent chat has the loaded id and every other previous chat is kept. When a conversation was on screen, its saved chat is kept exactly when its new id differs from the loaded one. |
| ChatPage.RecentAfterLoadFresh | app/page.tsx:60-82 | With a fresh id, the list is the saved chat followed by the previous chats without the loaded one, in order. |
| ChatPage.RouteAnswerShown | app/page.tsx:119-132 | Through the route, the page shows the trimmed generated text, "" when nothing was generated, and the apology for every failure of the call. |
| ChatPage.RouteFailureShown | app/page.tsx:119-121 | Every 500 of the route shows the apology. |
| ChatPage.VetLLMChatUI.constructor | app/page.tsx:26-30 | The page starts with no messages, an empty input, no pending reply, no recent chats and no current chat. |
| ChatPage.VetLLMChatUI.SetInput | app/page.tsx:284 | The input field takes the typed value; nothing else changes. |
| ChatPage.VetLLMChatUI.StartNewChat | app/page.tsx:39-58 | A conversation on screen is saved, as a copy titled by its first user message, in front of the recent chats, which keep their order. Without one the list is unchanged. Messages are cleared and no chat is current. |
| ChatPage.VetLLMChatUI.LoadChat | app/page.tsx:60-82 | The recent chats become `RecentAfterLoad(...)`, whose contents the lemmas above describe. The chat's messages go on screen, and its id becomes current. |
| ChatPage.VetLLMChatUI.Respond | app/page.tsx:107-144 | Exactly one assistant message with id `Date.now() + 1` is appended: the response's `content` when it is ok, the apology otherwise. Loading ends. |
| ChatPage.VetLLMChatUI.HandleSubmit | app/page.tsx:92-145 | A blank input or a pending reply changes nothing. Otherwise the posted list is the old messages plus the untrimmed input as a user message. The input is cleared and exactly one assistant message follows. The recent chats and the current id are untouched. |
| Js.TrimStartSuffix | app/api/chat/route.ts:73 | `trim` leaves a suffix of the text, after its leading white space, that does not start with white space. |
| Js.TrimEndPrefix | app/api/chat/route.ts:73 | `trim` leaves a prefix of the text that does not end with white space. |
| Js.TrimStartDropsSpace | app/api/chat/route.ts:73 | Only white space is dropped at the start. |
| Js.TrimEndDropsSpace | app/api/chat/route.ts:73 | Only white space is dropped at the end. |
| Js.TrimEnds | app/api/chat/route.ts:73 | The trimmed reply neither starts nor ends with white space. |
| Js.TrimEmpty | hooks/use-huggingface-chat.ts:24 | `!input.trim()` holds exactly when the input is all white space. |
| Js.TrimIsInfix | hooks/use-huggingface-chat.ts:75 | The trimmed payload is the infix of the line's rest that starts after its leading white space. |
| Js.TrimDropsOnlySpace | hooks/use-huggingface-chat.ts:75 | Only white space lies before and after that infix. |
| Js.Split | hooks/use-huggingface-chat.ts:71 | `split("\n")` always gives at least one piece, and no piece holds a line feed. |
| Js.JoinSplit | hooks/use-huggingface-chat.ts:71 | Joining the pieces with `\n` gives back the chunk: no text is lost or reordered. |
| Js.SplitJoin | hooks/use-huggingface-chat.ts:71 | Pieces without a line feed, joined and split again, come back as they were. |
| Js.DecimalDigits | hooks/use-huggingface-chat.ts:27 | A message id from `Date.now().toString()` is all decimal digits. |
| Js.DecimalInjective | hooks/use-huggingface-chat.ts:57 | Different clock readings give different ids. |

## Left out

- Network, HTTP headers and bodies, `response.json()`/`text()`, `TextDecoder` and the stream reader are I/O. Their outcomes are parameters: `Upstream` for the route, `Reply` for the hook, `Fetched` for the page.
- The sampling parameters `temperature: 0.6` and `top_p: 0.9` are floating-point constants passed to the provider and are not modelled. `max_new_tokens`, `do_sample` and `return_full_text` are.
- `JSON.parse` of a `data: ` payload is a parameter (`Parser`). It is reduced to "does not parse", or the truthy `content` text it yields.
- `reader.releaseLock()`, `console.error`, `e.preventDefault()`, scrolling, `selectedModel` and all JSX rendering have no effect on the modelled state.
- React's batching, asynchronous scheduling and stale closures are not modelled. Queued functional updates are applied in order, as if nothing ran in between.
- Request messages are records with string `role` and `content`. A body whose `messages` is not a list, or whose items are not such records, is not modelled. Nor is a `generated_text` that is not a string.
- The hook's reply content comes only from the stream's `data: ` lines. A non-ok response's `error` field is an optional string; other JSON values in that field are not modelled.
- ChatPage.VetLLMChatUI.Respond: an ok response without a `content` field gives an assistant message whose content is `undefined` in the page. The model stores "" for it. Through the route this cannot happen, because every ok answer carries a `content` string.
- ChatPage.GenerateChatTitle: lengths are counted in Unicode characters, whereas `length` and `substring` count UTF-16 code units. So a message holding emoji or other characters outside the Basic Multilingual Plane is measured and cut at different points than in the page: sixteen dog emoji are 32 units long there, and cut to fifteen plus "...", but 16 characters here, and kept whole.
- HuggingFaceChatHook.ChatHook.ReadStream: chunks are the decoded text of each read. A line or a multi-byte character split across two chunks is read as two separate pieces, as each chunk is split on its own. The decoding itself is not modelled.
- Ids are `Date.now()` readings passed in as numbers. The model does not claim two readings differ. Their timestamps (`new Date()`) are numbers too.
- Prompt building is deterministic because `Prompt` is a function of the messages alone; no separate lemma states this.
