# Chat transcript assembler of mastra-react-chat, in Dafny

The client's `useMastra` hook keeps a live chat transcript. The transcript is an ordered list of
entries of three kinds: user messages, assistant text runs and tool calls. An agent streams
typed chunks, and the hook folds them into that list. This project models the hook in three modules:

- `Transcript` (`transcript.dfy`) holds the data model. `ChatMessage` is the three-variant entry
  union and `Chunk` is the five recognised chunk kinds plus `Other` for any other kind. It also
  defines the predicates that say "the entry of run r", "a tool-call entry with id x", "at most
  one entry per key" and "same entry identity".
- `Reducer` (`reducer.dfy`) holds `handleChunk` as the pure function `Step`.
  - `Step` composes the hook's five guarded list updaters, in the hook's order.
  - `Fold` applies a chunk sequence in delivery order.
  - The lemmas state each branch's effect, the whole-reducer invariants and a few concrete
    scenarios.
- `Session` (`session.dfy`) holds the turn controller as the class `ChatSession`. Its fields are
  the transcript, `isStreaming` and the abort-controller reference. Its methods are:
  - `StartTurn`: the guard and the synchronous prefix of `sendMessage`;
  - `HandleChunk`: the `onChunk` callback;
  - `Abort`;
  - `EndTurn`: the `finally` block;
  - `Stream`: the awaited stream, a loop handing each delivered chunk to `HandleChunk`;
  - `SendMessage`: the whole call (`StartTurn`, then `Stream`, then `EndTurn`).

  The ghost fields `turnStart` and `delivered` let `Valid()` state the invariant that the
  transcript is always the turn's starting transcript folded over the chunks delivered since.
  `Valid()` also states that the transcript holds at most one assistant-text entry per run.

The model follows the code as written, including where it differs from the protocol one might
expect:

- `tool-call-delta`, `tool-call` and `tool-result` only `map` over the existing entries. For a
  `toolCallId` never started they change nothing; no entry is created on demand
  (`UnstartedResultIsDropped`).
- `tool-call` sets status `executing` unconditionally. A late `tool-call` chunk therefore moves a
  `done` entry back to `executing` (`LateArgsRegressPhase`). The phase is not monotonic, and
  nothing here claims that it is.
- `tool-call-input-streaming-start` does not check whether the id is already present. A repeated
  start gives two entries with the same id (`RepeatedStartDuplicatesEntry`). Uniqueness of tool
  calls is proved only under the assumption that each start's id is fresh.
- `text-delta` updates every assistant-text entry of the run, not just the last one. While runs
  are unique, which `Step` preserves, these are the same.
- `tool-call` is guarded by a truthy `toolCallId`; the other branches compare ids with `===`, so
  a missing id matches the entries that also lack one. Ids are therefore `Option<string>`.
- There is no separate "cancelling" state. `isStreaming` stays true from the start of the turn
  until the `finally` block.

## Model

| member | source | states |
|---|---|---|
| `Reducer.MapEntries` | client/src/hooks/useMastra.ts:36-40 | `prev.map(f)`: same length, and every entry is replaced by `f` of the entry at the same position |
| `Reducer.TextDeltaUpdate` | client/src/hooks/useMastra.ts:31-46 | the text-delta updater (`find`, then `map` or append): afterwards the run has an assistant-text entry; the length is unchanged exactly when it already had one, and grows by one otherwise; every old entry keeps its identity |
| `Reducer.NewToolCall` | client/src/hooks/useMastra.ts:52-59 | the entry a start creates: a tool call with the chunk's run and id, empty `argsText`, no args or result, status streaming, and a tool name that is never empty (the payload's name when truthy) |
| `Reducer.ArgsDeltaUpdate` | client/src/hooks/useMastra.ts:65-75 | the tool-call-delta `map`: same length, identities kept, entries with another id unchanged, and no change at all for an unseen id |
| `Reducer.ArgsUpdate` | client/src/hooks/useMastra.ts:80-90 | the tool-call `map`: same length, identities kept, entries with another id unchanged, and no change at all for an unseen id |
| `Reducer.ResultUpdate` | client/src/hooks/useMastra.ts:95-101 | the tool-result `map`: same length, identities kept, entries with another id unchanged, and no change at all for an unseen id |
| `Reducer.Step` | client/src/hooks/useMastra.ts:27-103 | `handleChunk`: the five guarded updaters in the hook's order; each chunk leaves the transcript at least as long as before and at most one entry longer |
| `Reducer.Fold` | client/src/hooks/useMastra.ts:131 | the chunks handed to `onChunk`, applied in delivery order: the transcript grows by at most one entry per chunk and never shrinks |
| `Reducer.StepIsOneRule` | client/src/hooks/useMastra.ts:27-103 | the five sequential `if`s equal a single rule chosen by chunk kind, so a chunk fires at most one branch; an unrecognised kind leaves the transcript unchanged |
| `Reducer.TextDeltaAppendsRun` | client/src/hooks/useMastra.ts:29-46 | a text-delta for a run with no assistant-text entry gives the old transcript plus exactly one `AssistantText(runId, text)` at the end |
| `Reducer.TextDeltaExtendsRun` | client/src/hooks/useMastra.ts:32-40 | a text-delta for a run with an entry keeps the length; each entry of that run becomes `AssistantText(runId, old content + text)`; every other entry stays unchanged at its position |
| `Reducer.TextDeltaExtendsSoleRun` | client/src/hooks/useMastra.ts:29-47 | with at most one entry per run, the result is the old transcript with only entry k's content extended by the text |
| `Reducer.ToolCallStartAppends` | client/src/hooks/useMastra.ts:51-60 | a start always appends exactly one tool-call entry (`argsText` "", status streaming, no args or result, the payload's run and id) and keeps the old transcript as its prefix; the tool name is the payload's name, or "unknown" when it is absent or empty |
| `Reducer.ToolCallDeltaExtendsArgs` | client/src/hooks/useMastra.ts:64-76 | same length; every tool-call entry with that id gets the delta (a missing delta counts as "") appended to `argsText`, with all its other fields kept; non-matching entries are unchanged; an unseen id leaves the transcript identical |
| `Reducer.ToolCallArgsSetsExecuting` | client/src/hooks/useMastra.ts:79-91 | with a truthy id, every matching tool-call entry gets the chunk's args and status executing, with identity fields, `argsText` and result kept; with a falsy id or no match, the transcript is identical |
| `Reducer.ToolResultSetsDone` | client/src/hooks/useMastra.ts:94-102 | every matching tool-call entry gets the result and status done, with identity fields, `argsText` and args kept; non-matching entries are unchanged; an unseen id leaves the transcript identical |
| `Reducer.StepOnlyAppends` | client/src/hooks/useMastra.ts:27-103 | the length grows by at most one. It grows exactly for a start, or for a text-delta of a run with no entry. Then the old transcript is the prefix and the new entry is not a user message. Every old entry keeps its variant and identity fields, and user messages stay exactly as they were |
| `Reducer.StepKeepsRunsUnique` | client/src/hooks/useMastra.ts:29-47 | every chunk preserves "at most one assistant-text entry per runId" |
| `Reducer.StepKeepsToolCallsUnique` | client/src/hooks/useMastra.ts:51-60 | "at most one tool-call entry per toolCallId" is preserved by every chunk whose start, if it is a start, names an id not yet present |
| `Reducer.FoldOnlyAppends` | client/src/hooks/useMastra.ts:27-103 | over any chunk sequence, the transcript grows by at most one entry per chunk. Every initial entry keeps its variant and identity fields, and a user message stays verbatim. No user message is synthesized |
| `Reducer.FoldKeepsRunsUnique` | client/src/hooks/useMastra.ts:29-47 | any chunk sequence preserves "at most one assistant-text entry per runId" |
| `Reducer.TrailingRunExtends` | client/src/hooks/useMastra.ts:32-40 | when the run's only entry is the last one, a text-delta extends just that entry's content and leaves every other entry as it was |
| `Reducer.TextFragmentsAccumulate` | client/src/hooks/useMastra.ts:29-47 | the fragments of a new run, in arrival order, become a single assistant-text entry at the end holding their concatenation |
| `Reducer.HelloWorldAccumulates` | client/src/hooks/useMastra.ts:36-46 | the fragments "Hel", "lo, ", "world" of one run give the single entry "Hello, world" |
| `Reducer.StartThenResultGivesOneEntry` | client/src/hooks/useMastra.ts:51-102 | a start followed by a result for the same id gives exactly one tool-call entry, with empty `argsText`, the result set and status done |
| `Reducer.UnstartedResultIsDropped` | client/src/hooks/useMastra.ts:94-102 | a result for an id that was never started creates no entry |
| `Reducer.LateArgsRegressPhase` | client/src/hooks/useMastra.ts:79-102 | start, then result, then a late tool-call chunk leaves the single entry with its result but with status executing again |
| `Reducer.RepeatedStartDuplicatesEntry` | client/src/hooks/useMastra.ts:51-60 | two starts with the same id give two entries with that id, which breaks per-id uniqueness |
| `Session.TrimStart` | client/src/hooks/useMastra.ts:107 | the leading whitespace and line terminators of `trim()` are dropped: the result is a suffix, it does not start with a trimmable character, and everything before it is trimmable |
| `Session.TrimEnd` | client/src/hooks/useMastra.ts:107 | the same, at the end of the string |
| `Session.Trim` | client/src/hooks/useMastra.ts:107 | `content.trim()`: the result is no longer than the content, and neither of its ends is whitespace or a line terminator; it is empty (so `!content.trim()` holds) exactly when every character of the content is one |
| `Session.AbortController.constructor` | client/src/hooks/useMastra.ts:117 | `new AbortController()`: a controller whose signal has not fired |
| `Session.AbortController.Abort` | client/src/hooks/useMastra.ts:141 | `.abort()`: afterwards the signal has fired |
| `Session.ChatSession.constructor` | client/src/hooks/useMastra.ts:23-25 | the hook starts with an empty transcript, idle and with no abort controller |
| `Session.ChatSession.StartTurn` | client/src/hooks/useMastra.ts:107-117 | blank content, or a call while streaming, changes nothing. Otherwise, before any chunk, exactly one `UserMessage(id, content)` is appended, `isStreaming` becomes true and a fresh, unfired controller is installed |
| `Session.ChatSession.HandleChunk` | client/src/hooks/useMastra.ts:131 | each delivered chunk replaces the transcript by `Step` of it; the busy flag and the controller are unchanged. The invariant is kept: the transcript is the fold of the turn's delivered chunks and holds at most one assistant-text entry per run |
| `Session.ChatSession.Stream` | client/src/hooks/useMastra.ts:131 | delivered chunks reach `HandleChunk` in order until the transport runs out or the user aborts; afterwards exactly the prefix before the abort has been delivered, the session is still busy with the same controller, and that controller has fired exactly when the abort came before the end |
| `Session.ChatSession.Abort` | client/src/hooks/useMastra.ts:140-142 | fires the installed controller if there is one; the session state is unchanged |
| `Session.ChatSession.EndTurn` | client/src/hooks/useMastra.ts:132-135 | the ref is cleared and `isStreaming` is false; the transcript is untouched |
| `Session.CancelMidRun` | client/src/hooks/useMastra.ts:105-142 | a turn cut short. The user asks "what is the weather in London?", a second send while busy is ignored, one text fragment arrives, and the user aborts. The session ends idle, with no controller, holding the user message and the partial assistant text |
| `Session.ChatSession.SendMessage` | client/src/hooks/useMastra.ts:105-138 | the call is ignored with no change exactly when the content is blank or a turn is running. Otherwise, however the stream ends, the session ends idle with a null ref. The transcript then equals the user-appended transcript folded over exactly the delivered prefix (all chunks, or those before the abort), with the user message in place and every earlier entry's identity kept. The returned promise rejects exactly when the stream threw |

## Left out

- `client/src/App.tsx` is rendering and form wiring, including the `stateMap` lookup from status
  to a display state. It is not modelled.
- The transport is not modelled: `MastraClient`, `getAgent`, `agent.stream`, `processDataStream`
  and HTTP streaming. `SendMessage` takes the chunks it would deliver (`produced`, already cut
  short if the stream breaks) and whether it ends by throwing (`failed`). Whether an abort makes
  the transport throw is the transport's business, so that too is expressed through `failed`.
- `AbortController` signalling and async scheduling are reduced to a flag. The user aborts after
  some number (`cancelAfter`) of delivered chunks, and delivery stops there. Interleavings of
  other calls with the suspended `sendMessage`, beyond `StartTurn`'s re-entrancy guard, are not
  modelled.
- React hook mechanics are not modelled: `useState`, `useCallback`, `useRef`, the stale
  `isStreaming` captured by the `sendMessage` closure, and batched state updates. The state is
  plain fields, and each queued `setMessages` updater is applied at once and in order.
- `crypto.randomUUID()` is not modelled: the user message's id is a parameter.
- The contents of `args` and `result` are opaque `Json` values, carried but never inspected.
  `BASE_URL`, the agent name and the memory options are configuration and not modelled.
- The `as string` casts on payload fields are not modelled. `text-delta`'s `text` is taken to be a
  string, so the string "undefined" that JavaScript would append for a missing text is not
  modelled. A missing `toolCallId` is `None`.
