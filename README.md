# Conversation-history manager of the chat proxy, in Dafny

This project models the per-user conversation-history manager in `src/agent.ts`. The manager sits in front of a chat-completion API. For each user it keeps a short history of chat messages in an in-process cache, keyed by `"conversation:" + userId`.

- `talkWithGPT` validates a request. Without memory it submits only the system and user prompts. With memory it reuses the stored conversation, or starts a new one when there is none or the system prompt changed. It then submits the stored messages followed by the user prompt. After a successful completion it appends the assistant turn, keeps only the most recent `HISTORY_LIMIT` messages and writes the conversation back.
- `resetHistory` deletes one user's entry.

The completion call is external and asynchronous, so `talkWithGPT` is split in two around it:

- `ConversationStore.Prepare` does everything before the call.
- `ConversationStore.Commit` does everything after it. It takes the call's result as a `Completion` value: it threw (with an optional message), it returned no message, or it returned a reply.
- `ConversationStore.TalkWithGPT` runs the two in sequence.

Each operation that reads or changes the cache has a step function: a pure function from the cache before (and the inputs) to the operation's result and the cache after. These are `PrepareStep`, `CommitStep`, `TalkStep` and `ResetStep`. The methods `Prepare`, `Commit`, `TalkWithGPT` and `ResetHistory` are each proved to return exactly what their step function gives and to leave exactly that cache. The properties of the manager are then stated as contracts of the step functions and as lemmas about them.

Modules:

- `Wrappers` (`wrappers.dfy`): `Option`, and the `Either` result as `Result` with `Left`/`Right`.
- `JsBuiltins` (`js_builtins.dfy`): the two JavaScript built-ins the manager's behaviour depends on. `String.prototype.trim` uses the ECMAScript whitespace and line-terminator set. `Array.prototype.slice(start)` is modelled for integer `start`.
- `Agent` (`agent.dfy`): the messages, the conversations, the request, the completion outcome, the step functions and the `ConversationStore` class. The class holds the cache as a `map<string, Conversation>` field and the history limit as a constant. Its `Valid()` invariant (`WellFormed`) says that every stored conversation is non-empty when the limit is not negative, and at most `historyLimit` long when the limit is positive.
- `AgentScenarios` (`scenarios.dfy`): concrete request sequences starting from an empty cache, with their outcome. They are proved from the lemmas about the step functions.

Values are immutable in Dafny, so the cache's copy-on-read setting (`useClones: true`) needs no modelling. Times are integer parameters: `preparedAt` stands for the `Date.now()` of a reinitialisation, and `completedAt` for the one of the write-back.

On these points the code does something a reader might not expect; the model follows the code:

- The reply's `role` is passed through from the API (`message.role as "assistant"` is only a type cast), not forced to `"assistant"`. The history entry is always written with the role `"assistant"`.
- `userId` is required even without memory.
- `resetHistory` answers `true` whether or not an entry existed.
- The `userId` check happens before trimming. A user id made only of blanks is accepted, trimmed to `""`, and stored under `"conversation:"`. `resetHistory` refuses that same id, so the entry can only leave by expiry (`AgentScenarios.BlankUserId`).
- A `HISTORY_LIMIT` of 0 keeps the whole history, because `slice(-0)` is `slice(0)`. A negative limit drops that many of the oldest messages. A limit of 3 can evict the system message (`AgentScenarios.LimitOfThree`).

## Model

| member | source | states |
|---|---|---|
| `JsBuiltins.TrimStart` | src/agent.ts:113 | Leading whitespace is cut: every removed character is whitespace, and the result is empty or starts with a non-whitespace character. |
| `JsBuiltins.TrimStartIsSuffix` | src/agent.ts:113 | What is left after cutting leading whitespace is the end of the input. |
| `JsBuiltins.TrimEnd` | src/agent.ts:113 | Trailing whitespace is cut: every removed character is whitespace, and the result is empty or ends with a non-whitespace character. |
| `JsBuiltins.TrimEndIsPrefix` | src/agent.ts:113 | What is left after cutting trailing whitespace is the start of the input. |
| `JsBuiltins.Trim` | src/agent.ts:113 | `trim()` is never longer than its input, and its result neither starts nor ends with whitespace. What it keeps is stated by `TrimKeepsMiddle`. |
| `JsBuiltins.TrimKeepsMiddle` | src/agent.ts:113 | `trim()` keeps exactly the infix of its input that starts after the leading whitespace. Every character it cuts, before or after that infix, is whitespace. |
| `JsBuiltins.TrimStartEmptyIffBlank` | src/agent.ts:200 | Cutting leading whitespace leaves nothing exactly when the input is all whitespace. |
| `JsBuiltins.TrimEndEmptyIffBlank` | src/agent.ts:200 | Cutting trailing whitespace leaves nothing exactly when the input is all whitespace. |
| `JsBuiltins.TrimEmptyIffBlank` | src/agent.ts:200 | `trim()` gives `""` exactly when the input is empty or all whitespace, which is the condition `resetHistory` refuses. |
| `JsBuiltins.TrimUnpadded` | src/agent.ts:113 | A non-empty id with no whitespace at either end is its own trim. |
| `JsBuiltins.LastN` | src/agent.ts:85 | Keeping the last `n` elements yields `min(n, length)` elements. |
| `JsBuiltins.LastNIsSuffix` | src/agent.ts:85 | The last `n` elements are the end of the sequence. |
| `JsBuiltins.JsSliceFrom` | src/agent.ts:85 | `slice(start)` with a negative start keeps `min(-start, n)` elements; with a non-negative start it keeps `max(n - start, 0)`. |
| `JsBuiltins.JsSliceFromIsSuffix` | src/agent.ts:85 | `slice(start)` returns the end of the array. |
| `Agent.CacheKeyInjective` | src/agent.ts:42-44 | `"conversation:" + a == "conversation:" + b` exactly when `a == b`, so distinct users never share an entry. |
| `Agent.CacheKey` | src/agent.ts:42-44 | The key is `"conversation:"` followed by the user id, and the id can be read back from the key's tail. |
| `Agent.TrimHistory` | src/agent.ts:85 | With limit L ≥ 1 the stored history has `min(L, n)` messages; with L = 0 it is the whole list, since `slice(-0)` is `slice(0)`; with a negative L it has `max(n + L, 0)`. |
| `Agent.TrimHistoryShort` | src/agent.ts:85 | A history of at most L ≥ 1 messages is stored whole. |
| `Agent.TrimHistoryLong` | src/agent.ts:85 | A history longer than L ≥ 1 keeps exactly its last L messages. |
| `Agent.TrimHistoryAbsorbs` | src/agent.ts:85 | For L ≥ 1, appending turns to a trimmed history and trimming again equals trimming the untrimmed sequence once. So across the successful turns since the conversation was last initialised, the stored history is the most recent L messages of all of them. |
| `Agent.ConversationInUse` | src/agent.ts:122-130 | Memory mode continues the stored conversation when it exists with the same `lastSystemPrompt`. Otherwise it continues a new one holding only `system(systemPrompt)`, with both times `now`. Either way its `lastSystemPrompt` is the request's. |
| `Agent.ErrorMessage` | src/agent.ts:188 | The failure text is the thrown error's message when that is present and non-empty, and "Unknown error occurred" when it is missing or empty. It is never empty. |
| `Agent.Lookup` | src/agent.ts:47-50 | On a given cache, a user's conversation is present exactly when the user's key is in the cache, and it is the value stored under that key. |
| `Agent.LookupAfterSave` | src/agent.ts:47-59 | After saving a conversation for one user, looking that user up returns it, and every other user's lookup is unchanged. |
| `Agent.SaveKeepsWellFormed` | src/agent.ts:53-59 | Saving a conversation that is non-empty (limit ≥ 0) and within the limit (limit ≥ 1) keeps the store's invariant. |
| `Agent.UpdatedConversation` | src/agent.ts:84-89 | The updated conversation is non-empty for a non-empty list and a limit ≥ 0, and within a positive limit. Its `createdAt` is the prior entry's when that is present and non-zero, and `now` otherwise. |
| `Agent.PrepareStep` | src/agent.ts:104-144 | It succeeds exactly when `userId` and `userPrompt` are present and non-empty. A missing or empty `userId` is refused first, then an empty `userPrompt`, with the cache unchanged, with or without memory. On success it carries the trimmed id, and the submitted list ends with `user(userPrompt)`. Without memory the list is exactly `[system, user]` and the cache is unchanged. With memory the conversation in use is stored under the trimmed id and is the one carried forward. |
| `Agent.PrepareKeepsWellFormed` | src/agent.ts:120-130 | The reinitialisation before the call keeps the store's invariant. |
| `Agent.PrepareInMemory` | src/agent.ts:120-137 | In memory mode the part before the call stores the conversation in use under the user's key, which leaves the cache as it was when that conversation is reused. It submits the conversation's messages followed by `user(userPrompt)`. |
| `Agent.CommitStep` | src/agent.ts:146-195 | It succeeds exactly for a reply. A thrown error gives its message (or "Unknown error occurred") and a missing message gives "No response received from OpenAI API", with the cache unchanged. A reply answers with its role and its content, `""` when absent. In memory mode the entry becomes the trimmed `submitted ++ [assistant(content)]` under the new system prompt, with `createdAt` kept unless it is absent or 0, `updatedAt = now`, and `history` equal to the stored messages. Only that key changes. Otherwise there is no `history` and the cache is unchanged. The store's invariant is kept. |
| `Agent.TalkWithGPTOutcome` | src/agent.ts:95-196 | A request succeeds exactly when it is valid and the call replies, and then answers with the reply. An invalid request fails with the validation message and changes nothing. A valid one fails with the call's error text. Without memory the cache is unchanged and there is no `history`. |
| `Agent.TalkStep` | src/agent.ts:95-196 | A whole request, the part before the call followed by the part after it, succeeds exactly when the request is valid and the call replies. It keeps the store's invariant. |
| `Agent.TalkWithGPTFailure` | src/agent.ts:120-195 | A valid memory-mode request whose call fails leaves only the reinitialisation done before the call. |
| `Agent.TalkWithGPTSuccess` | src/agent.ts:120-182 | A valid memory-mode request whose call replies stores the trimmed `conversation-in-use ++ [user, assistant]` under the request's system prompt. Its `createdAt` is kept unless it is 0, and `updatedAt` is the completion time. It returns those messages as `history`, and no other key changes. |
| `Agent.FirstTurn` | src/agent.ts:125-182 | The first memory-mode success of a user, or the first after a system-prompt change, stores the trimmed `[system, user, assistant]`, for an id without surrounding blanks. |
| `Agent.NextTurn` | src/agent.ts:122-182 | A memory-mode success that finds a conversation built for the same system prompt stores the trimmed `history ++ [user, assistant]` and keeps its `createdAt` unless it is 0, for an id without surrounding blanks. |
| `Agent.ResetStep` | src/agent.ts:199-214 | It returns false exactly for an id that is empty or only whitespace, and then leaves the cache unchanged. Otherwise the new cache is the old one without the key of the trimmed id, present or not, and that lookup is absent. Every other user's lookup is unchanged. |
| `Agent.ResetIdempotent` | src/agent.ts:199-214 | Resetting the same id a second time gives the same answer and leaves the same cache as resetting it once. |
| `Agent.ConversationStore.constructor` | src/agent.ts:26-31 | A new store is empty, satisfies the invariant and uses the given history limit. |
| `Agent.ConversationStore.GetUserConversation` | src/agent.ts:47-50 | The user's conversation is present exactly when the store holds the user's key, and it is the value stored there. |
| `Agent.ConversationStore.SaveUserConversation` | src/agent.ts:53-59 | Replaces the entry under the user's key and nothing else. It keeps the invariant when given a conversation that is non-empty (limit ≥ 0) and within the limit (limit ≥ 1). |
| `Agent.ConversationStore.InitializeConversation` | src/agent.ts:62-76 | Stores and returns a conversation whose messages are exactly `[system(systemPrompt)]`, with `lastSystemPrompt = systemPrompt` and both times `now`. It changes only that key and keeps the invariant. |
| `Agent.ConversationStore.UpdateConversation` | src/agent.ts:79-93 | Stores and returns `UpdatedConversation` of the entry it finds. It changes only that key and keeps the invariant. |
| `Agent.ConversationStore.Prepare` | src/agent.ts:104-144 | Returns exactly what `PrepareStep` gives on the old cache and leaves exactly its cache. It keeps the invariant. |
| `Agent.ConversationStore.Commit` | src/agent.ts:146-195 | Returns exactly what `CommitStep` gives on the old cache and leaves exactly its cache. It keeps the invariant. |
| `Agent.ConversationStore.TalkWithGPT` | src/agent.ts:95-196 | Returns exactly what `TalkStep` gives on the old cache and leaves exactly its cache. It keeps the invariant. |
| `Agent.ConversationStore.ResetHistory` | src/agent.ts:199-214 | Returns exactly what `ResetStep` gives on the old cache and leaves exactly its cache. It keeps the invariant. |
| `Agent.ConversationStore.Expire` | src/agent.ts:26-31 | Time-to-live expiry removes exactly one key and keeps the invariant. |
| `AgentScenarios.TwoTurnsWithMemory` | src/agent.ts:120-182 | First memory request for "u1": stores `[system, user, assistant]`. Second request: submits those 3 plus the new user turn, stores 5 and keeps the first creation time. |
| `AgentScenarios.LimitOfThree` | src/agent.ts:85 | With a limit of 3, the stored history is the 3 most recent messages after every turn, and the system message is evicted. |
| `AgentScenarios.PromptChangeThenFailure` | src/agent.ts:125-195 | A changed system prompt submits `[system(P2), user]`. After a failed call the answer is the error's message and the stored conversation is exactly the reinitialised one. |
| `AgentScenarios.TrimOfPadded` | src/agent.ts:206 | `" u1 ".trim()` is `"u1"`. |
| `AgentScenarios.ResetTwice` | src/agent.ts:199-214 | A reset removes the stored entry. A second reset of the same id padded with blanks also returns true and changes nothing. |
| `AgentScenarios.BlankUserId` | src/agent.ts:105-214 | A blank user id is stored under `"conversation:"`. Resetting with it returns false and leaves that entry in place. |
| `AgentScenarios.NoMemory` | src/agent.ts:104-186 | Without memory a missing user id is still refused. An accepted request submits `[system, user]` and succeeds with no history and the cache unchanged. |

## Left out

- The chat-completion client (src/agent.ts:33-37, 147-152) is a network call into a foreign library. It appears only as the `Completion` input of `Commit`. The model name and temperature defaults, the timeout, and the `refusal`/`annotations` fields of the response are passed through unchanged and are not modelled.
- The cache's TTL clock and periodic sweep are timer-driven library behaviour. Only their effect, `Expire(key)`, is modelled.
- TalkWithGPT: concurrent requests are not modelled. In the source, two requests for the same user can interleave across the `await` and lose a turn. The model runs each prepare/commit pair without interleaving. `Prepare` and `Commit` stay separate methods, so an interleaving can still be written as a client.
- UpdateConversation: uses one `now` for the two `Date.now()` calls at src/agent.ts:87-88, which in the source may differ by a few milliseconds.
- `HISTORY_LIMIT` comes from `Number(process.env.HISTORY_LIMIT ?? 20)`. The model takes the already-parsed integer as the store's constructor argument. Non-integer and NaN values are not modelled.
- Console logging is left out.
- The `catch` in `resetHistory` (src/agent.ts:210-213) is not modelled. The cache's `del` throws only for keys that are not strings or numbers, and the key here is always a string.
- Request-schema validation, routing, the API-key check, HTTP status codes, the health endpoint and server bootstrap are plumbing around the manager, and are not part of this model.
- `useMemory` is a `bool`; an absent value, which JavaScript treats as false, is modelled as `false`. `systemPrompt || ""` is the identity on strings, so `systemPrompt` is a plain `string`.
- Strings are sequences of Unicode scalar values, not UTF-16 code units, so a lone surrogate cannot be represented. Nothing the manager does depends on this: every character `trim` removes lies in the Basic Multilingual Plane, and cache keys compare equal in both representations exactly when they are the same text.
