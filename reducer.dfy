/**
  The chunk reducer `handleChunk` of `useMastra`: every chunk turns the
  previous transcript into the next one. Each branch of the hook queues one
  pure updater (`find`, `map` and spread over the list); `Step` composes the
  five guarded updaters in the order the hook queues them.
 */
module Reducer {
  import opened Transcript

  /** `prev.map(f)`: `f` applied to every entry, length and order kept. */
  function MapEntries(s: seq<ChatMessage>, f: ChatMessage -> ChatMessage): (r: seq<ChatMessage>)
    ensures |r| == |s|
    ensures forall i :: 0 <= i < |s| ==> r[i] == f(s[i])
  {
    if s == [] then [] else [f(s[0])] + MapEntries(s[1..], f)
  }

  /** JavaScript truthiness of an optional string: present and not empty. */
  predicate Truthy(o: Option<string>)
  {
    o.Some? && o.value != ""
  }

  /** `o || ""` for an optional string. */
  function OrEmpty(o: Option<string>): string
  {
    if Truthy(o) then o.value else ""
  }

  /** `o || "unknown"` for an optional string. */
  function OrUnknown(o: Option<string>): string
  {
    if Truthy(o) then o.value else "unknown"
  }

  // ---- the updaters for one entry -------------------------------------------

  function WithText(m: ChatMessage, runId: string, text: string): ChatMessage
  {
    if IsRunText(m, runId) then m.(content := m.content + text) else m
  }

  function WithArgsDelta(m: ChatMessage, id: Option<string>, delta: Option<string>): ChatMessage
  {
    if IsToolEntry(m, id) then m.(argsText := m.argsText + OrEmpty(delta)) else m
  }

  function WithArgs(m: ChatMessage, id: Option<string>, args: Option<Json>): ChatMessage
  {
    if IsToolEntry(m, id) then m.(args := args, status := Executing) else m
  }

  function WithResult(m: ChatMessage, id: Option<string>, result: Option<Json>): ChatMessage
  {
    if IsToolEntry(m, id) then m.(result := result, status := Done) else m
  }

  // ---- the updaters for the whole list, one per branch ----------------------

  /** text-delta: extend the run's assistant-text entry, or append one. */
  function TextDeltaUpdate(prev: seq<ChatMessage>, runId: string, text: string): (r: seq<ChatMessage>)
    ensures HasRunText(r, runId)
    ensures |prev| <= |r| <= |prev| + 1
    ensures |r| == |prev| <==> HasRunText(prev, runId)
    ensures forall i :: 0 <= i < |prev| ==> SameIdentity(prev[i], r[i])
  {
    if HasRunText(prev, runId) then MapEntries(prev, m => WithText(m, runId, text))
    else
      var r := prev + [AssistantText(runId, text)];
      assert IsRunText(r[|prev|], runId);
      r
  }

  /** tool-call-input-streaming-start: the entry that is appended. */
  function NewToolCall(runId: string, id: Option<string>, name: Option<string>): (m: ChatMessage)
    ensures m.ToolCall? && m.runId == runId && m.toolCallId == id
    ensures m.argsText == "" && m.args.None? && m.result.None? && m.status == Streaming
    ensures m.toolName != "" && (Truthy(name) ==> m.toolName == name.value)
  {
    ToolCall(runId, id, OrUnknown(name), "", None, None, Streaming)
  }

  function ArgsDeltaUpdate(prev: seq<ChatMessage>, id: Option<string>, delta: Option<string>): (r: seq<ChatMessage>)
    ensures |r| == |prev|
    ensures forall i :: 0 <= i < |prev| ==> SameIdentity(prev[i], r[i])
    ensures forall i :: 0 <= i < |prev| && !IsToolEntry(prev[i], id) ==> r[i] == prev[i]
    ensures !HasToolEntry(prev, id) ==> r == prev
  {
    MapEntries(prev, m => WithArgsDelta(m, id, delta))
  }

  function ArgsUpdate(prev: seq<ChatMessage>, id: Option<string>, args: Option<Json>): (r: seq<ChatMessage>)
    ensures |r| == |prev|
    ensures forall i :: 0 <= i < |prev| ==> SameIdentity(prev[i], r[i])
    ensures forall i :: 0 <= i < |prev| && !IsToolEntry(prev[i], id) ==> r[i] == prev[i]
    ensures !HasToolEntry(prev, id) ==> r == prev
  {
    MapEntries(prev, m => WithArgs(m, id, args))
  }

  function ResultUpdate(prev: seq<ChatMessage>, id: Option<string>, result: Option<Json>): (r: seq<ChatMessage>)
    ensures |r| == |prev|
    ensures forall i :: 0 <= i < |prev| ==> SameIdentity(prev[i], r[i])
    ensures forall i :: 0 <= i < |prev| && !IsToolEntry(prev[i], id) ==> r[i] == prev[i]
    ensures !HasToolEntry(prev, id) ==> r == prev
  {
    MapEntries(prev, m => WithResult(m, id, result))
  }

  /**
    `handleChunk`: five independent guarded updates applied in turn, as the
    hook's five `if` statements queue them.
   */
  function Step(prev: seq<ChatMessage>, c: Chunk): (r: seq<ChatMessage>)
    ensures |prev| <= |r| <= |prev| + 1
  {
    var afterText := if c.TextDelta? then TextDeltaUpdate(prev, c.runId, c.text) else prev;
    var afterStart :=
      if c.ToolCallStart? then afterText + [NewToolCall(c.runId, c.toolCallId, c.toolName)]
      else afterText;
    var afterDelta :=
      if c.ToolCallDelta? then ArgsDeltaUpdate(afterStart, c.toolCallId, c.argsTextDelta)
      else afterStart;
    var afterArgs :=
      if c.ToolCallArgs? && Truthy(c.toolCallId) then ArgsUpdate(afterDelta, c.toolCallId, c.args)
      else afterDelta;
    if c.ToolResult? then ResultUpdate(afterArgs, c.toolCallId, c.result) else afterArgs
  }

  /** The transcript after a sequence of chunks, applied in delivery order. */
  function Fold(s: seq<ChatMessage>, cs: seq<Chunk>): (r: seq<ChatMessage>)
    ensures |s| <= |r| <= |s| + |cs|
    decreases |cs|
  {
    if cs == [] then s else Step(Fold(s, cs[..|cs| - 1]), cs[|cs| - 1])
  }

  /** A reference reading of the reducer: exactly one rule per chunk kind. */
  function Rule(prev: seq<ChatMessage>, c: Chunk): seq<ChatMessage>
  {
    match c
    case TextDelta(runId, text) => TextDeltaUpdate(prev, runId, text)
    case ToolCallStart(runId, id, name) => prev + [NewToolCall(runId, id, name)]
    case ToolCallDelta(id, delta) => ArgsDeltaUpdate(prev, id, delta)
    case ToolCallArgs(id, args) => if Truthy(id) then ArgsUpdate(prev, id, args) else prev
    case ToolResult(id, result) => ResultUpdate(prev, id, result)
    case Other(_) => prev
  }

  // ---- one lemma per branch -------------------------------------------------

  /** A chunk fires at most one of the five branches; an unknown kind fires none. */
  lemma StepIsOneRule(prev: seq<ChatMessage>, c: Chunk)
    ensures Step(prev, c) == Rule(prev, c)
    ensures c.Other? ==> Step(prev, c) == prev
  {
  }

  /** text-delta for a run with no entry yet: exactly one entry appended at the end. */
  lemma TextDeltaAppendsRun(prev: seq<ChatMessage>, runId: string, text: string)
    requires !HasRunText(prev, runId)
    ensures Step(prev, TextDelta(runId, text)) == prev + [AssistantText(runId, text)]
  {
  }

  /**
    text-delta for a run that has an entry: same length; every entry of that
    run gets the text appended, every other entry stays where and as it was.
   */
  lemma TextDeltaExtendsRun(prev: seq<ChatMessage>, runId: string, text: string)
    requires HasRunText(prev, runId)
    ensures var r := Step(prev, TextDelta(runId, text));
      && |r| == |prev|
      && (forall i :: 0 <= i < |prev| && IsRunText(prev[i], runId) ==>
            r[i] == AssistantText(runId, prev[i].content + text))
      && (forall i :: 0 <= i < |prev| && !IsRunText(prev[i], runId) ==> r[i] == prev[i])
  {
  }

  /** With one entry per run, a text-delta changes exactly that entry's content. */
  lemma TextDeltaExtendsSoleRun(prev: seq<ChatMessage>, runId: string, text: string, k: nat)
    requires UniqueRuns(prev)
    requires k < |prev| && IsRunText(prev[k], runId)
    ensures Step(prev, TextDelta(runId, text)) == prev[k := AssistantText(runId, prev[k].content + text)]
  {
    TextDeltaExtendsRun(prev, runId, text);
  }

  /**
    tool-call-input-streaming-start: always exactly one new tool-call entry at
    the end, streaming, with empty argsText and the payload's name or "unknown".
   */
  lemma ToolCallStartAppends(prev: seq<ChatMessage>, runId: string, id: Option<string>, name: Option<string>)
    ensures var r := Step(prev, ToolCallStart(runId, id, name));
      && r[..|prev|] == prev
      && r == prev + [ToolCall(runId, id, r[|prev|].toolName, "", None, None, Streaming)]
      && r[|prev|].toolName == (if name.Some? && name.value != "" then name.value else "unknown")
  {
    var r := Step(prev, ToolCallStart(runId, id, name));
    assert r == prev + [NewToolCall(runId, id, name)];
    assert r[..|prev|] == prev;
  }

  /**
    tool-call-delta: same length; every tool-call entry with that id gets the
    delta (a missing one read as "") appended to argsText; the rest is untouched.
   */
  lemma ToolCallDeltaExtendsArgs(prev: seq<ChatMessage>, id: Option<string>, delta: Option<string>)
    ensures var r := Step(prev, ToolCallDelta(id, delta));
      && |r| == |prev|
      && (forall i :: 0 <= i < |prev| && IsToolEntry(prev[i], id) ==>
            r[i] == prev[i].(argsText := prev[i].argsText + (if delta.Some? then delta.value else "")))
      && (forall i :: 0 <= i < |prev| && !IsToolEntry(prev[i], id) ==> r[i] == prev[i])
      && (!HasToolEntry(prev, id) ==> r == prev)
  {
    var r := Step(prev, ToolCallDelta(id, delta));
    if !HasToolEntry(prev, id) {
      assert forall i :: 0 <= i < |prev| ==> r[i] == prev[i];
    }
  }

  /**
    tool-call: with a truthy id, every tool-call entry with that id gets the
    chunk's args and status executing (whatever its status was); with a falsy id,
    or none matching, nothing changes.
   */
  lemma ToolCallArgsSetsExecuting(prev: seq<ChatMessage>, id: Option<string>, args: Option<Json>)
    ensures var r := Step(prev, ToolCallArgs(id, args));
      && |r| == |prev|
      && (forall i :: 0 <= i < |prev| && IsToolEntry(prev[i], id) && Truthy(id) ==>
            r[i] == prev[i].(args := args, status := Executing))
      && (forall i :: 0 <= i < |prev| && !(IsToolEntry(prev[i], id) && Truthy(id)) ==> r[i] == prev[i])
      && (!Truthy(id) || !HasToolEntry(prev, id) ==> r == prev)
  {
    var r := Step(prev, ToolCallArgs(id, args));
    if !Truthy(id) || !HasToolEntry(prev, id) {
      assert forall i :: 0 <= i < |prev| ==> r[i] == prev[i];
    }
  }

  /**
    tool-result: every tool-call entry with that id gets the result and status
    done; a result for an id never seen leaves the transcript as it was.
   */
  lemma ToolResultSetsDone(prev: seq<ChatMessage>, id: Option<string>, result: Option<Json>)
    ensures var r := Step(prev, ToolResult(id, result));
      && |r| == |prev|
      && (forall i :: 0 <= i < |prev| && IsToolEntry(prev[i], id) ==>
            r[i] == prev[i].(result := result, status := Done))
      && (forall i :: 0 <= i < |prev| && !IsToolEntry(prev[i], id) ==> r[i] == prev[i])
      && (!HasToolEntry(prev, id) ==> r == prev)
  {
    var r := Step(prev, ToolResult(id, result));
    if !HasToolEntry(prev, id) {
      assert forall i :: 0 <= i < |prev| ==> r[i] == prev[i];
    }
  }

  // ---- whole-reducer invariants ---------------------------------------------

  /**
    No branch removes or reorders entries: the transcript grows by at most one
    entry, exactly when a tool call starts or a run's first text arrives; when
    it grows, the old transcript is its prefix and the new entry is not a user
    message; every old entry keeps its variant and identity fields.
   */
  lemma StepOnlyAppends(prev: seq<ChatMessage>, c: Chunk)
    ensures var r := Step(prev, c);
      && |prev| <= |r| <= |prev| + 1
      && (|r| == |prev| + 1 <==> c.ToolCallStart? || (c.TextDelta? && !HasRunText(prev, c.runId)))
      && (|r| == |prev| + 1 ==> r[..|prev|] == prev && !r[|prev|].UserMessage?)
      && (forall i :: 0 <= i < |prev| ==> SameIdentity(prev[i], r[i]))
  {
    var r := Step(prev, c);
    if |r| == |prev| + 1 {
      assert r == prev + [r[|prev|]];
      assert r[..|prev|] == prev;
    }
  }

  /** "At most one assistant-text entry per runId" holds after every chunk. */
  lemma StepKeepsRunsUnique(prev: seq<ChatMessage>, c: Chunk)
    requires UniqueRuns(prev)
    ensures UniqueRuns(Step(prev, c))
  {
    var r := Step(prev, c);
    StepOnlyAppends(prev, c);
    forall i, j | 0 <= i < j < |r| && r[i].AssistantText? && r[j].AssistantText?
      ensures r[i].runId != r[j].runId
    {
      assert SameIdentity(prev[i], r[i]);
      if j < |prev| {
        assert SameIdentity(prev[j], r[j]);
      } else {
        assert c.TextDelta? && !HasRunText(prev, c.runId);
        assert r[j] == AssistantText(c.runId, c.text);
        assert !IsRunText(prev[i], c.runId);
      }
    }
  }

  /**
    "At most one tool-call entry per toolCallId" holds after every chunk whose
    start, if it is one, names an id not yet in the transcript. The start
    branch does not check this itself (see RepeatedStartDuplicatesEntry).
   */
  lemma StepKeepsToolCallsUnique(prev: seq<ChatMessage>, c: Chunk)
    requires UniqueToolCalls(prev)
    requires c.ToolCallStart? ==> !HasToolEntry(prev, c.toolCallId)
    ensures UniqueToolCalls(Step(prev, c))
  {
    var r := Step(prev, c);
    StepOnlyAppends(prev, c);
    forall i, j | 0 <= i < j < |r| && r[i].ToolCall? && r[j].ToolCall?
      ensures r[i].toolCallId != r[j].toolCallId
    {
      assert SameIdentity(prev[i], r[i]);
      if j < |prev| {
        assert SameIdentity(prev[j], r[j]);
      } else {
        assert c.ToolCallStart?;
        assert r[j] == NewToolCall(c.runId, c.toolCallId, c.toolName);
        assert !IsToolEntry(prev[i], c.toolCallId);
      }
    }
  }

  lemma SameIdentityTransitive(a: ChatMessage, b: ChatMessage, c: ChatMessage)
    requires SameIdentity(a, b) && SameIdentity(b, c)
    ensures SameIdentity(a, c)
  {
  }

  /**
    Over any chunk sequence the transcript only grows, by at most one entry per
    chunk; every entry it started with keeps its variant and identity (a user
    message stays exactly as it was); no user message is ever synthesized.
   */
  lemma {:induction false} FoldOnlyAppends(s: seq<ChatMessage>, cs: seq<Chunk>)
    ensures var r := Fold(s, cs);
      && |s| <= |r| <= |s| + |cs|
      && (forall i :: 0 <= i < |s| ==> SameIdentity(s[i], r[i]))
      && (forall i :: |s| <= i < |r| ==> !r[i].UserMessage?)
    decreases |cs|
  {
    if cs != [] {
      var mid := Fold(s, cs[..|cs| - 1]);
      var r := Fold(s, cs);
      FoldOnlyAppends(s, cs[..|cs| - 1]);
      StepOnlyAppends(mid, cs[|cs| - 1]);
      forall i | 0 <= i < |s|
        ensures SameIdentity(s[i], r[i])
      {
        SameIdentityTransitive(s[i], mid[i], r[i]);
      }
      forall i | |s| <= i < |r|
        ensures !r[i].UserMessage?
      {
        if i < |mid| {
          assert SameIdentity(mid[i], r[i]);
        }
      }
    }
  }

  /** "At most one assistant-text entry per runId" holds over any chunk sequence. */
  lemma {:induction false} FoldKeepsRunsUnique(s: seq<ChatMessage>, cs: seq<Chunk>)
    requires UniqueRuns(s)
    ensures UniqueRuns(Fold(s, cs))
    decreases |cs|
  {
    if cs != [] {
      FoldKeepsRunsUnique(s, cs[..|cs| - 1]);
      StepKeepsRunsUnique(Fold(s, cs[..|cs| - 1]), cs[|cs| - 1]);
    }
  }

  // ---- text accumulation ----------------------------------------------------

  /** The text-delta chunks of one run, one per fragment. */
  function TextChunks(runId: string, texts: seq<string>): seq<Chunk>
  {
    seq(|texts|, i requires 0 <= i < |texts| => TextDelta(runId, texts[i]))
  }

  /** The fragments joined in arrival order. */
  function Concat(texts: seq<string>): string
    decreases |texts|
  {
    if texts == [] then "" else Concat(texts[..|texts| - 1]) + texts[|texts| - 1]
  }

  /** A text-delta for the run whose only entry is the last one extends just that entry. */
  lemma TrailingRunExtends(prev: seq<ChatMessage>, runId: string, content: string, text: string)
    requires !HasRunText(prev, runId)
    ensures Step(prev + [AssistantText(runId, content)], TextDelta(runId, text))
         == prev + [AssistantText(runId, content + text)]
  {
    var mid := prev + [AssistantText(runId, content)];
    assert IsRunText(mid[|prev|], runId);
    TextDeltaExtendsRun(mid, runId, text);
    var r := Step(mid, TextDelta(runId, text));
    forall i | 0 <= i < |mid|
      ensures r[i] == (prev + [AssistantText(runId, content + text)])[i]
    {
      if i < |prev| {
        assert mid[i] == prev[i];
        assert !IsRunText(prev[i], runId);
      }
    }
  }

  /**
    The fragments of a new run become one assistant-text entry at the end,
    holding their concatenation in arrival order.
   */
  lemma {:induction false} TextFragmentsAccumulate(prev: seq<ChatMessage>, runId: string, texts: seq<string>)
    requires !HasRunText(prev, runId)
    requires |texts| > 0
    ensures Fold(prev, TextChunks(runId, texts)) == prev + [AssistantText(runId, Concat(texts))]
    decreases |texts|
  {
    var n := |texts| - 1;
    var cs := TextChunks(runId, texts);
    TextChunksSplit(runId, texts);
    if n == 0 {
      assert Concat(texts) == texts[0];
      TextDeltaAppendsRun(prev, runId, texts[0]);
    } else {
      TextFragmentsAccumulate(prev, runId, texts[..n]);
      TrailingRunExtends(prev, runId, Concat(texts[..n]), texts[n]);
    }
  }

  /** The chunks of all fragments are the chunks of all but the last, then the last one's. */
  lemma TextChunksSplit(runId: string, texts: seq<string>)
    requires |texts| > 0
    ensures var cs := TextChunks(runId, texts);
      && |cs| == |texts|
      && cs[..|texts| - 1] == TextChunks(runId, texts[..|texts| - 1])
      && cs[|texts| - 1] == TextDelta(runId, texts[|texts| - 1])
  {
  }

  /** ["Hel", "lo, ", "world"] for one run yields the single entry "Hello, world". */
  lemma HelloWorldAccumulates(runId: string)
    ensures Fold([], TextChunks(runId, ["Hel", "lo, ", "world"])) == [AssistantText(runId, "Hello, world")]
  {
    var texts := ["Hel", "lo, ", "world"];
    TextFragmentsAccumulate([], runId, texts);
    assert texts[..2] == ["Hel", "lo, "] && texts[..2][..1] == ["Hel"] && texts[..2][..1][..0] == [];
    assert Concat(texts) == Concat(["Hel", "lo, "]) + "world";
    assert Concat(["Hel", "lo, "]) == Concat(["Hel"]) + "lo, ";
    assert Concat(["Hel"]) == Concat([]) + "Hel";
    assert Concat(texts) == "Hello, world";
  }

  // ---- tool-call scenarios, as the code is written --------------------------

  /** A start followed by a result for the same id: one entry, no args text, done. */
  lemma StartThenResultGivesOneEntry(runId: string, id: string, name: Option<string>, res: Json)
    ensures Fold([], [ToolCallStart(runId, Some(id), name), ToolResult(Some(id), Some(res))])
         == [ToolCall(runId, Some(id), OrUnknown(name), "", None, Some(res), Done)]
  {
    var cs := [ToolCallStart(runId, Some(id), name), ToolResult(Some(id), Some(res))];
    var started := [NewToolCall(runId, Some(id), name)];
    assert cs[..1][..0] == [];
    assert Fold([], cs[..1]) == started;
    ToolResultSetsDone(started, Some(id), Some(res));
  }

  /** A result whose id was never started is dropped: no entry is created for it. */
  lemma UnstartedResultIsDropped(id: Option<string>, res: Option<Json>)
    ensures Fold([], [ToolResult(id, res)]) == []
  {
    assert [ToolResult(id, res)][..0] == [];
    ToolResultSetsDone([], id, res);
  }

  /** A tool-call chunk arriving after the result moves the entry back to executing. */
  lemma LateArgsRegressPhase(runId: string, id: string, res: Json, args: Json)
    requires id != ""
    ensures var r := Fold([], [ToolCallStart(runId, Some(id), None), ToolResult(Some(id), Some(res)),
                               ToolCallArgs(Some(id), Some(args))]);
      |r| == 1 && r[0].ToolCall? && r[0].result == Some(res) && r[0].status == Executing
  {
    var cs := [ToolCallStart(runId, Some(id), None), ToolResult(Some(id), Some(res)),
               ToolCallArgs(Some(id), Some(args))];
    var done := [ToolCall(runId, Some(id), "unknown", "", None, Some(res), Done)];
    assert cs[..2] == cs[..2][..2];
    StartThenResultGivesOneEntry(runId, id, None, res);
    assert Fold([], cs[..2]) == done;
    ToolCallArgsSetsExecuting(done, Some(id), Some(args));
  }

  /** Two starts with the same id give two entries with that id. */
  lemma RepeatedStartDuplicatesEntry(runId: string, id: Option<string>, name: Option<string>)
    ensures var r := Fold([], [ToolCallStart(runId, id, name), ToolCallStart(runId, id, name)]);
      |r| == 2 && IsToolEntry(r[0], id) && IsToolEntry(r[1], id) && !UniqueToolCalls(r)
  {
    var cs := [ToolCallStart(runId, id, name), ToolCallStart(runId, id, name)];
    assert cs[..1] == [cs[0]];
    assert cs[..1][..0] == [];
    assert Fold([], cs[..1]) == [NewToolCall(runId, id, name)];
    assert Fold([], cs) == [NewToolCall(runId, id, name), NewToolCall(runId, id, name)];
  }
}
