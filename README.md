# Chat session bookkeeping of lume-ai, in Dafny

This project models the client-side chat bookkeeping of the lume-ai web app
and proves what it does:

- **`useUserChat`** (`src/store/userChat.ts`), the durable list of chats. Each
  chat has an id, a title, a model, an ordered list of messages, and creation
  and update times. `createChat` asks a title service about the first two
  messages. If the reply carries an error it throws. Otherwise it appends the
  chat, titled `"New Chat"` when the reply has no title. `updateChat`,
  `addMessage`, `updateChatTitle`, `deleteChat` and `clearAllChats` each
  replace the list with a new one.
- **`useChat`** (`src/hooks/use-chat.tsx`), a legacy store of the same shape.
  Its chats have a `name` instead of a title. `createChat` has default
  arguments. `updateChat` takes an optional model, used only when it is not
  empty. It also holds four UI control values, each with its own setter.
- **The first-turn promotion** (`src/app/page.tsx`). `onFinish` raises
  `initialChatCreation`. The effect fires only while that flag is up and the
  stream is not loading, and lowers the flag as it fires. It builds two seed
  messages from the first two streamed messages. Both seeds carry the selected
  model and the provider found for it in the model registry. It then creates a
  chat with the fixed model `"gpt-4o-mini"` and navigates to `/c/<id>`.

Modules:

- `common.dfy` (`Common`): `Option`, `Result`, the `ai` message type, and
  JavaScript string truthiness.
- `keyed_lists.dfy` (`KeyedLists`): the three array expressions every action is
  built from, over records with a string key. They are `find`, `filter` by key
  and `map` on the matching records. The module also holds the lemmas about
  them: order kept, idempotence, unique keys kept, and find after append.
- `user_chat.dfy` (`UserChat`), `use_chat.dfy` (`UseChat`): each store has pure
  functions that compute the new chat list. A `ChatStore` class holds the list
  as a field, and its methods set the field to those functions of the old list.
  `Valid()` says the ids are pairwise distinct. Every method keeps it.
- `page.dfy` (`Page`): the seed construction and the provider lookup as
  functions. The page is a class with the flag, the selected model and the
  routes it navigated to (`ChatPath` builds `/c/<id>`). It also has a client method showing that one
  finished reply creates at most one chat, plus two end-to-end scenarios.

Inputs from outside the code are parameters:

- Ids from `generateId` / `crypto.randomUUID` are a parameter `id`, with the
  precondition that no stored chat has that id.
- `new Date()` is an integer `now`.
- The title endpoint is a function `titleService` from the request messages to
  a `TitleResponse`. A response is either a decoded body with an optional
  `title` and an optional `error`, or `Unreadable` when the request or the JSON
  decoding threw.
- `isLoading` and the streamed `messages` are parameters of the effect.

Three behaviours of the code the model keeps:

- `addMessage` does not refresh `updatedAt` (`src/store/userChat.ts:91-98`).
- A failed title request leaves `initialChatCreation` lowered all the same
  (`src/app/page.tsx:51-52`). The effect does not retry until the next
  `onFinish`.
- The `useUserChat` `updateChat` takes no model (`src/store/userChat.ts:76-82`).

## Model

| member | source | states |
|---|---|---|
| `KeyedLists.FindIndex` | src/hooks/use-chat.tsx:85-88 | `find` stops at the first element with the key; it returns none exactly when no element has the key |
| `KeyedLists.Find` | src/store/userChat.ts:39-42 | `find` returns an element with the key, and no earlier element has that key; it returns none exactly when the key is absent |
| `KeyedLists.FilterOut` | src/store/userChat.ts:83-87 | `filter` by id keeps exactly the elements with another id; the id is gone afterwards; when the id is absent the list is returned unchanged |
| `KeyedLists.FilterOutConcat` | src/hooks/use-chat.tsx:79-83 | filtering distributes over concatenation, so the survivors keep their relative order |
| `KeyedLists.FilterOutIdempotent` | src/store/userChat.ts:83-87 | deleting the same id twice equals deleting it once |
| `KeyedLists.FilterOutUnique` | src/hooks/use-chat.tsx:81 | with distinct ids, deleting the id of the chat at position i leaves the list minus position i, in order |
| `KeyedLists.FilterOutKeepsUnique` | src/store/userChat.ts:85 | deleting keeps ids pairwise distinct |
| `KeyedLists.MapMatching` | src/store/userChat.ts:78-80 | `map` with an id test: same length; records with the id are transformed; all others are unchanged |
| `KeyedLists.MapMatchingKeys` | src/hooks/use-chat.tsx:66-75 | when the transformation keeps ids, the id list of the result equals the old one |
| `KeyedLists.AppendFresh` | src/hooks/use-chat.tsx:57-59 | appending a record with a fresh id keeps ids distinct, and `find` on that id returns the new record |
| `KeyedLists.FindIndexSameKeys` | src/store/userChat.ts:39-42 | lookup depends only on the ids, so two lists with the same ids give the same position |
| `UserChat.TitleRequest` | src/store/userChat.ts:52 | the title request is a prefix of the messages of length min(2, number of messages) |
| `UserChat.ResolveTitle` | src/store/userChat.ts:46-60 | a request or decoding that threw is a failure carrying that error's message; a non-empty `error` is a failure carrying that message; otherwise the title is the returned one, or `"New Chat"` when absent |
| `UserChat.GetChat` | src/store/userChat.ts:39-42 | returns the first chat with the id, or none exactly when no chat has it |
| `UserChat.WithNewChat` | src/store/userChat.ts:61-73 | a successful create appends one chat at the end with the fresh id, title, model, messages and `createdAt = updatedAt = now`; earlier chats are unchanged; `getChat` on the id finds the new chat |
| `UserChat.ChatStore.CreateChat` | src/store/userChat.ts:43-75 | on a title failure the list is unchanged and the failure carries exactly the message `ResolveTitle` gives; otherwise the list is the old list plus the new chat, and the id is returned; ids stay distinct |
| `UserChat.ReplaceMessages` | src/store/userChat.ts:76-82 | chats with the id get the new messages and `updatedAt = now`, keeping title, model and `createdAt`; other chats are unchanged; length and ids are kept; an absent id leaves the list identical |
| `UserChat.ChatStore.UpdateChat` | src/store/userChat.ts:76-82 | the stored list becomes the replaced list; ids stay distinct |
| `UserChat.ReplaceThenGet` | src/store/userChat.ts:76-82 | after `updateChat`, `getChat` on that id returns the old chat with the new messages and update time |
| `UserChat.AppendMessage` | src/store/userChat.ts:91-98 | chats with the id get the message appended after their old messages; `updatedAt` and all other fields are kept; other chats are unchanged; an absent id is a no-op |
| `UserChat.ChatStore.AddMessage` | src/store/userChat.ts:91-99 | the stored list becomes the appended list; ids stay distinct |
| `UserChat.AppendThenGet` | src/store/userChat.ts:91-98 | after `addMessage`, the chat's messages are one longer, end with the new message and start with the old ones unchanged |
| `UserChat.Retitle` | src/store/userChat.ts:100-106 | chats with the id get the new title and `updatedAt = now`, keeping messages, model and `createdAt`; other chats are unchanged; an absent id is a no-op |
| `UserChat.ChatStore.UpdateChatTitle` | src/store/userChat.ts:100-106 | the stored list becomes the retitled list; ids stay distinct |
| `UserChat.ChatStore.DeleteChat` | src/store/userChat.ts:83-87 | the stored list becomes the filtered list; ids stay distinct |
| `UserChat.ChatStore.ClearAllChats` | src/store/userChat.ts:88-90 | the stored list becomes empty |
| `UserChat.ChatStore.constructor` | src/store/userChat.ts:37 | the store starts with no chats |
| `UseChat.NewChat` | src/hooks/use-chat.tsx:46-55 | omitted messages become `[]` and an omitted model becomes `"OpenAI: GPT-4o-mini"`; given values, including an empty model, are kept; both timestamps are `now` |
| `UseChat.ChatStore.CreateChat` | src/hooks/use-chat.tsx:46-62 | appends exactly the new chat at the end and returns its id; `getChat` finds it; the controls are unchanged; ids stay distinct |
| `UseChat.CreateThenGet` | src/hooks/use-chat.tsx:47-61 | appending a chat with a fresh id keeps ids distinct, and `getChat` on the id returns that chat |
| `UseChat.GetChat` | src/hooks/use-chat.tsx:85-88 | returns the first chat with the id, or none exactly when no chat has it |
| `UseChat.Update` | src/hooks/use-chat.tsx:64-77 | chats with the id get the messages and `updatedAt = now`; the model becomes the given one when present and non-empty, else stays; name and `createdAt` are kept; other chats are unchanged; an absent id is a no-op |
| `UseChat.ChatStore.UpdateChat` | src/hooks/use-chat.tsx:64-77 | the stored list becomes the updated list; the controls are unchanged; ids stay distinct |
| `UseChat.UpdateThenGet` | src/hooks/use-chat.tsx:64-88 | after `updateChat`, `getChat` on that id returns a chat with exactly the given messages and the old name |
| `UseChat.ChatStore.DeleteChat` | src/hooks/use-chat.tsx:79-83 | the stored list becomes the filtered list; the controls are unchanged; ids stay distinct |
| `UseChat.ChatStore.SetRegenerate` | src/hooks/use-chat.tsx:93-96 | sets `regenerate`; the other three controls and the chats are unchanged |
| `UseChat.ChatStore.SetRegenerateWithModel` | src/hooks/use-chat.tsx:98-101 | sets `regenerateWithModel`; the other three controls and the chats are unchanged |
| `UseChat.ChatStore.SetSelectedModel` | src/hooks/use-chat.tsx:103-106 | sets `selectedModel`; the other three controls and the chats are unchanged |
| `UseChat.ChatStore.SetCopyToClipboard` | src/hooks/use-chat.tsx:108-111 | sets `copyToClipboard`; the other three controls and the chats are unchanged |
| `UseChat.ChatStore.constructor` | src/hooks/use-chat.tsx:44-112 | no chats; the controls are false, false, `"OpenAI: GPT-4o-mini"`, false |
| `Page.ProviderFor` | src/app/page.tsx:37 | the provider of the first registry entry whose value is the model, or `""` when no entry has it |
| `Page.SeedMessages` | src/app/page.tsx:30-47 | with at least two messages: exactly two seeds, a user one with the first message's id and content and an assistant one with the second's; both carry the selected model, its provider and `now`. With fewer: none |
| `Page.ChatPage.constructor` | src/app/page.tsx:13-16 | the flag starts lowered, the selected model is `"OpenAI: GPT-4o-mini"`, and nothing has been navigated to |
| `Page.ChatPage.SetModel` | src/app/page.tsx:15 | changes only the selected model |
| `Page.ChatPage.OnFinish` | src/app/page.tsx:21-23 | raises `initialChatCreation`; the selected model and the routes are unchanged |
| `Page.ChatPage.Effect` | src/app/page.tsx:27-53 | the flag ends up raised only if it was raised and loading continues. A chat is created, with model `"gpt-4o-mini"` and the seeds, only if the effect fired, there are two messages and the title succeeds. Navigation to `/c/<id>` happens exactly then; otherwise the store and the route list are unchanged |
| `Page.FinishThenRunTwice` | src/app/page.tsx:21-54 | one `onFinish` followed by two runs of the effect creates at most one chat and one navigation; if the first run creates nothing the store and routes are unchanged, otherwise exactly one chat and one route are added; the second run does nothing |
| `Page.GreetingScenario` | src/app/page.tsx:27-53 | "Hello" / "Hi there" with the title "Greeting" makes one chat with those two messages, that title and model `"gpt-4o-mini"`, both messages stamped with the initially selected model `"OpenAI: GPT-4o-mini"`, and navigates to it |
| `Page.RateLimitedScenario` | src/app/page.tsx:27-53 | a title error leaves the store empty, navigates nowhere, and still lowers the flag |

## Left out

- The `fetch("/api/completion")` request and the JSON decoding of its reply (`src/store/userChat.ts:46-56`). They are replaced by the `titleService` parameter and the `TitleResponse` it returns.
- `UserChat.ResolveTitle`: a `title` of JSON `null`, or an `error` that is truthy but not a string, is not modelled. The title is an optional string and the error an optional string, truthy when non-empty.
- The `persist` / `createJSONStorage` / `localStorage` wiring of both stores (`src/store/userChat.ts:108-111`, `src/hooks/use-chat.tsx:114-125`). This includes the shared `"chat-storage"` key and the rehydration of dates from strings. It is I/O and serialisation done by the library.
- `getAllChats` in both stores returns the store's list itself. In the model that is the `chat` / `chats` field of `ChatStore`, so there is no separate member.
- `generateId`, `crypto.randomUUID` and `new Date()` are foreign calls. They become an `id` parameter that must be fresh and an integer `now`. Both timestamps of a new chat and both seed messages share one `now`.
- The streaming `useChat` hook of `ai/react` (`append`, `stop`, `reload`, throttling, `isLoading`) is an external library. `messages` and `isLoading` are inputs of `Page.ChatPage.Effect`.
- `Page.ChatPage.Effect`: the real handler is an un-awaited async function, so the store update and the navigation land after the flag is lowered. Here the whole run is one step. React's scheduling of effects and re-renders is not modelled.
- `router.push` is recorded as a route appended to `navigations`. The model registry (`AIMODELS`) is not part of this model; it is a parameter, a sequence of (value, provider) entries.
- The JSX of `src/app/page.tsx` and all of `src/app/_components/ChatUI.tsx` are rendering only.
- Fields of the `ai` message type other than id, role, content and `createdAt` are not modelled.
