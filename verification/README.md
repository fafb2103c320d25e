# CoPilot CBT helper: session and chat bookkeeping in Dafny

This project models the client-side bookkeeping of a chat application that puts a
CBT-style assistant in front of a third-party chat-completion API. It covers:

- **The session store** (`Sessions`, from `src/services/sessions.ts`). It keeps a
  newest-first list of sessions in one local-storage slot. Each writer reads the
  whole list, changes it and writes it back. A reader falls back to the empty list
  when the slot is missing or holds text that does not parse. The store also makes
  session titles from the first user message.
- **The completion client** (`OpenAI`, from `src/services/openai.ts`). It turns the
  transcript into a request, interprets the reply, and keeps the user's key in a
  global slot.
- **The chat controller** (`ChatContainer`). It holds the transcript, the
  loading/error flags and the key form, and handles sends and key submission.
- **The dashboard** (`Dashboard`). It holds the sidebar's session list and the
  active session, and handles load, create, update and restart.
- **The session list** (`SessionList`). It holds the delete confirmation and the
  per-session user-message count.
- **The message box** (`ChatInput`). It holds the draft and the submit guard.

`Types` holds the shared records from `src/types/chat.ts`. `Text` holds the two
JavaScript string operations the code relies on: `trim` and `split('\n')[0]`.
`Arrays` holds the array builtins `findIndex`, `find` and `filter`.

How things are represented:

- State that a component or module updates in place becomes a class field. This
  covers the storage slot, the key slot, `chatState`, the dashboard's lists, the
  pending confirmation and the draft.
- The source's pure expressions become functions. Properties relating several
  calls are lemmas.
- Things the code gets from the environment become parameters: fresh ids, the
  clock (integer milliseconds), the locale date label (an opaque string) and the
  remote reply (a value).

Where the code departs from its comments and evident intent, the model follows the code.
Four places:

- The completion guard reads an empty module constant, so every completion fails.
- A successful send shows the user message twice.
- A restarted session keeps the default title instead of getting the restart marker.
- The chat controller never creates, updates or titles sessions: `ChatContainer`
  takes no props. So that wiring is not modelled.

The first three are listed under "Findings".

## Model

| member | source | states |
|---|---|---|
| `Sessions.SessionStore.GetSessions` | src/services/sessions.ts:18-34 | Returns the stored list. Returns the empty list when the key is absent or the text is malformed. Never fails. |
| `Sessions.SessionStore.SaveSessions` | src/services/sessions.ts:37-39 | The slot afterwards holds exactly the given list. |
| `Sessions.SessionStore.CreateSession` | src/services/sessions.ts:42-55 | The new session has the given id and title "Session <date>". Created and updated times are both now. Messages are `[initialMessage]` or empty. It is stored at index 0, followed by every previously readable session in order. The returned record is the stored one. |
| `Sessions.SessionStore.GetSessionById` | src/services/sessions.ts:58-61 | Nothing when no stored session has the id. Otherwise the session at the first index carrying it. |
| `Sessions.ApplyPatch` | src/services/sessions.ts:70-74 | Each supplied field overrides the stored one and the others are kept. `updatedAt` is now even when the patch supplies one. |
| `Sessions.SessionStore.UpdateSession` | src/services/sessions.ts:64-80 | Unknown id: returns nothing and leaves the slot exactly as it was. Otherwise only the first match is replaced by the patched, re-stamped record, and that record is returned. |
| `Sessions.SessionStore.UpdateSessionMessages` | src/services/sessions.ts:83-85 | Same as `UpdateSession` with the patch `{messages}`. The first match gets the new messages and time. All its other fields are kept. |
| `Sessions.SessionStore.DeleteSession` | src/services/sessions.ts:104-108 | Writes back the read list, filtered to the sessions whose id differs. |
| `Sessions.DeleteRemovesExactlyId` | src/services/sessions.ts:106 | After a delete no session has the id, and every session with another id is still there. |
| `Sessions.DeleteAbsentIsNoop` | src/services/sessions.ts:104-108 | Deleting an id that no session has gives back the same list. |
| `Sessions.DeleteIdempotent` | src/services/sessions.ts:104-108 | Deleting the same id twice has the effect of deleting it once. |
| `Sessions.DeleteKeepsOrder` | src/services/sessions.ts:106 | Delete distributes over concatenation, so the surviving sessions keep their relative order. |
| `Sessions.CreateKeepsWellFormed` | src/services/sessions.ts:43-52 | Prepending a session with a fresh id keeps ids unique and keeps `createdAt <= updatedAt` for every session. |
| `Sessions.UpdateKeepsWellFormed` | src/services/sessions.ts:64-77 | An update that leaves `id` and `createdAt` alone, with a clock no earlier than any creation time, keeps that invariant. |
| `Sessions.DeleteKeepsUniqueIds` | src/services/sessions.ts:104-108 | Filtering a list whose ids are unique leaves ids unique. |
| `Sessions.DeleteKeepsWellFormed` | src/services/sessions.ts:104-108 | Delete keeps both parts of the invariant. |
| `Sessions.NewSession` | src/services/sessions.ts:43-49 | The record `createSession` builds: the given id, title "Session <date>", created and updated at now. Messages are exactly the initial message when one is given, otherwise empty. |
| `Sessions.TitleFromLine` | src/services/sessions.ts:98-100 | A blank line gives "Session <date>". A line of at most 30 characters is the title. A longer one gives its first 27 characters and "...", 30 in all. |
| `Sessions.GenerateSessionTitle` | src/services/sessions.ts:88-101 | The title is never empty. |
| `Sessions.TitleWithoutUserMessage` | src/services/sessions.ts:89-93 | No messages, or no user message: the title is "New Session <date>". |
| `Sessions.TitleFromFirstUserMessage` | src/services/sessions.ts:92-100 | The title depends only on the trimmed text before the first line feed of the first user message. Blank gives "Session <date>". At most 30 characters gives that text. More gives its first 27 characters and "...", 30 characters in all. |
| `Sessions.TitleShape` | src/services/sessions.ts:88-101 | A title is either a date fallback, or one line of 1 to 30 characters that does not start with whitespace. |
| `Sessions.TitleFromLineShape` | src/services/sessions.ts:98-100 | Cutting a trimmed single line keeps it a single line of at most 30 characters, or falls back. |
| `Sessions.TitleCutsLongMessage` | src/services/sessions.ts:96-98 | A first user message of over 30 characters, on one line and without surrounding whitespace, gives exactly its first 27 characters plus "...". |
| `Sessions.TitleKeepsShortMessage` | src/services/sessions.ts:96-100 | Such a message of 1 to 30 characters is itself the title. |
| `Text.Trim` | src/services/sessions.ts:97 | `trim()` is empty exactly when the text is all whitespace. Otherwise it neither starts nor ends with whitespace. It only keeps characters of the input. |
| `Text.TrimUnique` | src/services/sessions.ts:97 | `trim()` removes exactly the whitespace margins: any whitespace-framed slice without whitespace at either end is the result. |
| `Text.TrimIdempotent` | src/services/sessions.ts:97 | Trimming an already trimmed line changes nothing. |
| `Text.FirstLine` | src/services/sessions.ts:97 | `split('\n')[0]` is the longest prefix without a line feed. If shorter than the text, a line feed follows it. |
| `Arrays.FindIndex` | src/services/sessions.ts:66 | `findIndex` gives the first index whose element satisfies the predicate, or -1 exactly when none does. |
| `Arrays.Find` | src/services/sessions.ts:60 | `find` gives nothing exactly when no element satisfies the predicate. Otherwise it gives a satisfying element of the list, with no satisfying element before it. |
| `Arrays.Filter` | src/services/sessions.ts:106 | `filter` keeps exactly the elements that satisfy the predicate and is never longer than its input. |
| `Arrays.FilterAppend` | src/components/Sessions/SessionList.tsx:98 | Filtering a concatenation is concatenating the filtered parts. |
| `OpenAI.FormatMessages` | src/services/openai.ts:43-49 | n messages give n+1 entries. Entry 0 is the system prompt. Entry i+1 carries message i's role and content. No later entry is a system entry. |
| `OpenAI.FormatMessagesAppend` | src/services/openai.ts:43-49 | Appending a message to the transcript appends exactly its entry to the request. |
| `OpenAI.BuildRequest` | src/services/openai.ts:51-62 | The request carries "Bearer <key>", model gpt-4o-mini and max_tokens 500. Its messages are the system entry followed by one entry per message, with the same content. |
| `OpenAI.Interpret` | src/services/openai.ts:65-75 | Success happens exactly for an ok reply with at least one choice, and yields the first choice's content. A non-ok reply fails with the remote message if it is non-empty, else with "Failed to get response from OpenAI". Transport and parse failures are passed on with their own messages. |
| `OpenAI.GetChatCompletion` | src/services/openai.ts:36-39 | The guard reads the empty module key. The call therefore sends nothing and fails with "OpenAI API key is not set", whatever the transcript and reply. |
| `OpenAI.StoredKeyCompletion` | src/services/openai.ts:51-63 | With a key, exactly one request is sent. It carries "Bearer <key>", model gpt-4o-mini, the formatted messages and max_tokens 500. The result is the interpreted reply. With no key, nothing is sent. |
| `OpenAI.CompletionIgnoresStoredKey` | src/services/openai.ts:79-85 | Whatever non-empty key was stored, the client as written sends nothing. A guard reading that key would send. |
| `OpenAI.KeyStore.SetOpenAIKey` | src/services/openai.ts:79-86 | The slot holds the key, and reading it back yields that key. |
| `OpenAI.KeyStore.GetOpenAIKey` | src/services/openai.ts:89-91 | Returns the stored key, or "" when nothing was stored. |
| `ChatContainer.ChatController.constructor` | src/components/Chat/ChatContainer.tsx:27-34 | Starts with the welcome message alone, not loading and no error. The key draft is the stored key. `isApiKeySet` holds exactly when that key is non-empty. |
| `ChatContainer.AppendUser` | src/components/Chat/ChatContainer.tsx:57-61 | The first update of a send: the user message is added after all earlier messages, loading starts, and the error is kept. |
| `ChatContainer.AppendReply` | src/components/Chat/ChatContainer.tsx:76-80 | The success update as written: the earlier messages, then the user message, then the reply. Loading stops and the error is kept. |
| `ChatContainer.RecordFailure` | src/components/Chat/ChatContainer.tsx:83-87 | The failure update: the messages are kept, loading stops, and the error's message is recorded. |
| `ChatContainer.ChatController.BeginSend` | src/components/Chat/ChatContainer.tsx:43-65 | Without a key: no state change and nothing sent. Otherwise one user message with the given content is appended at the end, loading becomes true, and the error is kept. The transcript handed on is the messages before the send plus the user message. |
| `ChatContainer.ChatController.FinishSend` | src/components/Chat/ChatContainer.tsx:76-87 | Success appends the user message and the reply to the current list, keeps any earlier error and stops loading. Failure keeps the list, records the error's message and stops loading. |
| `ChatContainer.ChatController.HandleSendMessage` | src/components/Chat/ChatContainer.tsx:43-91 | The whole send. Success gives the old messages, the user message twice, then the reply. Failure gives the old messages and the user message, with the error recorded. Without a key nothing changes. |
| `ChatContainer.ChatController.EditApiKey` | src/components/Chat/ChatContainer.tsx:130 | The draft becomes the typed value. |
| `ChatContainer.ChatController.HandleApiKeySubmit` | src/components/Chat/ChatContainer.tsx:93-100 | A blank draft changes neither the flag nor the key slot. Otherwise the trimmed draft is stored and the key counts as set. |
| `ChatContainer.SuccessDuplicatesUserMessage` | src/components/Chat/ChatContainer.tsx:57-80 | The two updates together show the user message twice. The conversation shown is then not the sent transcript followed by the reply. |
| `ChatContainer.IntendedSuccessShowsTranscript` | src/components/Chat/ChatContainer.tsx:63-80 | With the corrected update, the conversation shown is exactly the sent transcript followed by the reply. |
| `Dashboard.ReplaceById` | src/pages/Dashboard.tsx:61-63 | The `map` keeps the length and keeps every id in its place. |
| `Dashboard.ReplaceByIdKeepsIds` | src/pages/Dashboard.tsx:60-63 | The map keeps the length and every id in place. It replaces every entry with the updated id and keeps the others. With no match it is the identity. |
| `Dashboard.SortNewestFirst` | src/pages/Dashboard.tsx:64-67 | The sorted list is a permutation of its input, ordered by `updatedAt`, newest first. |
| `Dashboard.SortKeepsTies` | src/pages/Dashboard.tsx:64-67 | The sort is stable: entries with equal `updatedAt` keep their relative order. |
| `Dashboard.Dashboard.constructor` | src/pages/Dashboard.tsx:17-18 | The page starts with an empty list and no active session. |
| `Dashboard.Dashboard.LoadOnMount` | src/pages/Dashboard.tsx:29-46 | A non-empty stored list is shown, with its first entry active and the store untouched. Otherwise one welcome-only session is created and stored. It becomes the whole list and the active session. |
| `Dashboard.Dashboard.HandleCreateNewSession` | src/pages/Dashboard.tsx:48-57 | The new welcome-only session goes in front of the old list, in the page and in the store, and becomes active. |
| `Dashboard.Dashboard.HandleSessionUpdated` | src/pages/Dashboard.tsx:59-69 | The list becomes the replaced list sorted newest first: same length, a permutation of the replaced list. |
| `Dashboard.Dashboard.SelectSession` | src/pages/Dashboard.tsx:116 | The chosen session becomes active. |
| `Dashboard.Dashboard.HandleRestartSession` | src/pages/Dashboard.tsx:71-87 | The list becomes the restarted session in front of the old list, and the original is untouched. The restarted session is active, holds exactly the welcome message and keeps the default title. |
| `Dashboard.RestartLosesTitle` | src/pages/Dashboard.tsx:80-86 | The title the list ends up with, "Session <date>", is never the marked title "<title> (Restarted)" when the date label does not end in ')'. |
| `Dashboard.RestartIntendedKeepsTitle` | src/pages/Dashboard.tsx:79-84 | With the corrected list, the first entry carries the original title plus " (Restarted)" and the restarted messages. The rest of the list is untouched. |
| `SessionList.UserMessageCount` | src/components/Sessions/SessionList.tsx:98 | The count never exceeds the number of messages. It is zero exactly when no message has role user. |
| `SessionList.UserMessageCountAppend` | src/components/Sessions/SessionList.tsx:98 | Appending messages adds exactly their user messages to the count. |
| `SessionList.SessionList.constructor` | src/components/Sessions/SessionList.tsx:25 | Nothing awaits confirmation at first. |
| `SessionList.SessionList.HandleDeleteClick` | src/components/Sessions/SessionList.tsx:27-30 | The clicked id awaits confirmation. |
| `SessionList.SessionList.HandleCancelDelete` | src/components/Sessions/SessionList.tsx:44-47 | Nothing awaits confirmation. |
| `SessionList.SessionList.HandleConfirmDelete` | src/components/Sessions/SessionList.tsx:32-42 | The id is removed from the store and nothing awaits confirmation. A new session is requested exactly when the deleted id is the active one. |
| `ChatInput.ChatInput.constructor` | src/components/Chat/ChatInput.tsx:13 | The draft starts empty. |
| `ChatInput.ChatInput.OnChange` | src/components/Chat/ChatInput.tsx:34 | The draft becomes the typed value. |
| `ChatInput.ChatInput.HandleSubmit` | src/components/Chat/ChatInput.tsx:15-21 | Sends only when the draft is not all whitespace and nothing is loading. It then sends the raw untrimmed draft and clears it. Otherwise it sends nothing and keeps the draft. |
| `ChatInput.ChatInput.HandleKeyDown` | src/components/Chat/ChatInput.tsx:23-28 | Enter without Shift behaves as submit. Shift+Enter and every other key send nothing and keep the draft. |

## Findings

| source | as written | input that shows it | evidently intended | confidence | as-written member | corrected member |
|---|---|---|---|---|---|---|
| src/services/openai.ts:37 | The guard and the bearer header read the module constant `OPENAI_API_KEY`, which is `''`. `setOpenAIKey` writes `window.OPENAI_API_KEY`, which `getChatCompletion` never reads. | After `setOpenAIKey("sk-x")`, any transcript: the call fails with "OpenAI API key is not set" and no request is sent. | The guard and header use the key from `getOpenAIKey()`. | high; not executed | `OpenAI.CompletionIgnoresStoredKey` (about `OpenAI.GetChatCompletion`) | `OpenAI.GetChatCompletionWithStoredKey`, proved by `OpenAI.StoredKeyCompletion` |
| src/components/Chat/ChatContainer.tsx:78 | The success update appends `userMessage` to `prev.messages`. `prev` already ends with it, because of the update at line 59. | Latent: it only shows once the guard of the row above is fixed, since as written `getChatCompletion` always fails before sending. Then sending "hi" from `[welcome]` with reply "hello" makes the list `[welcome, hi, hi, hello]`. | Append only the reply: `[welcome, hi, hello]`. | high; not executed | `ChatContainer.SuccessDuplicatesUserMessage` (about `ChatContainer.AppendReply`) | `ChatContainer.AppendReplyIntended`, proved by `ChatContainer.IntendedSuccessShowsTranscript` |
| src/pages/Dashboard.tsx:80-85 | The marked title goes only to `handleSessionUpdated`. Its map matches nothing, and its result is overwritten by the assignment at line 85. | Restart a session titled "Morning" on date label "10/11/2026": the new entry is titled "Session 10/11/2026", not "Morning (Restarted)". | The restarted entry carries "<original title> (Restarted)". | high; not executed | `Dashboard.RestartLosesTitle` (about `Dashboard.Dashboard.HandleRestartSession`) | `Dashboard.RestartListIntended`, proved by `Dashboard.RestartIntendedKeepsTitle` |

The component models (`ChatController`, `Dashboard`) follow the code as written.
The corrected definitions sit next to them, with their intended properties proved.

## Left out

- HTTP, JSON and async scheduling are not modelled. The remote reply is an input value (`OpenAI.Reply`). The stored JSON is taken to be a faithful encoding, so a list read back is the list written. Message timestamps, which the reader does not turn back into dates, are plain integers like every other time.
- Async interleaving: `ChatController.HandleSendMessage` assumes no other state update lands between its two halves. `BeginSend` and `FinishSend` model the two halves on their own. The completion's outcome is a parameter of `FinishSend`. With the client as written it is always the missing-key failure (`OpenAI.GetChatCompletion`).
- The sampling temperature 0.7 is a floating-point constant and is not part of `OpenAI.Request`.
- `Sessions.SessionStore.CreateSession` uses one clock value for `createdAt` and `updatedAt`. The code reads the clock once for each, so the two may differ by a tick; `createdAt <= updatedAt` holds either way.
- `uuidv4`, `new Date()`, `toLocaleDateString` and `formatDistanceToNow` become parameters: ids, integer clock values and an opaque date label. Both date fallbacks of a title use the same label. The code does not enforce id uniqueness; the well-formedness lemmas take fresh ids as a hypothesis.
- Local storage is one field of `Sessions.SessionStore`. An empty stored string counts as absent. Stored text that does not parse, or parses to something that is not an array, falls back to the empty list; the model calls both malformed. An array whose entries are not sessions (such as `[1]`) is mapped by the code into records with invalid dates; that case is abstracted away. A failing write (quota exceeded) is not modelled.
- A `Partial<Session>` field present but set to `undefined` is not modelled: the spread would copy it. The model's patch only has supplied or missing fields.
- `OpenAI.Interpret` assumes an ok reply's first choice carries a string message. The error for a missing first choice is the engine's message, written as a constant.
- `OpenAI.KeyStore` is one slot. In a browser `window` and `globalThis` are the same object, so the two writes in `setOpenAIKey` hit the same property.
- String lengths are counted in code points. JavaScript counts UTF-16 units, so titles with characters outside the Basic Multilingual Plane are cut at a different place.
- Authentication and routing (the sign-in redirect, App, main, the sign-in and sign-up pages) are not modelled. Neither are rendering, CSS, toasts, console logging, scroll-into-view or the sidebar toggle.
- Chat-to-session wiring is not modelled, because the code has none. `ChatContainer` takes no props, nothing calls `generateSessionTitle`, and the dashboard list is not refreshed after a delete. `SessionList.HandleConfirmDelete` returns whether the page should create a new session instead of calling back.
