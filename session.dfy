/**
  The turn controller of `useMastra`: `sendMessage` and `abort` over the
  hook's three pieces of state (the transcript, the busy flag and the abort
  controller reference). The agent stream is the sequence of chunks the
  transport delivers; cancelling stops delivery after some prefix of it.
 */
module Session {
  import opened Transcript
  import opened Reducer

  /**
    The characters ECMAScript's `String.prototype.trim` removes: WhiteSpace
    (tab, vertical tab, form feed, space, no-break space, byte order mark and
    the Unicode space separators) and LineTerminator (LF, CR, LS, PS).
   */
  predicate IsTrimmable(ch: char)
  {
    || ch in {'\t', '\n', '\U{B}', '\U{C}', '\r', ' ', '\U{A0}', '\U{1680}',
              '\U{2028}', '\U{2029}', '\U{202F}', '\U{205F}', '\U{3000}', '\U{FEFF}'}
    || ('\U{2000}' <= ch <= '\U{200A}')
  }

  /** Drops the leading trimmable characters: what is left is a suffix that starts with none. */
  function TrimStart(s: string): (r: string)
    ensures |r| <= |s| && r == s[|s| - |r|..]
    ensures r != [] ==> !IsTrimmable(r[0])
    ensures forall i :: 0 <= i < |s| - |r| ==> IsTrimmable(s[i])
  {
    if s != [] && IsTrimmable(s[0]) then TrimStart(s[1..]) else s
  }

  /** Drops the trailing trimmable characters: what is left is a prefix that ends with none. */
  function TrimEnd(s: string): (r: string)
    ensures |r| <= |s| && r == s[..|r|]
    ensures r != [] ==> !IsTrimmable(r[|r| - 1])
    ensures forall i :: |r| <= i < |s| ==> IsTrimmable(s[i])
  {
    if s != [] && IsTrimmable(s[|s| - 1]) then TrimEnd(s[..|s| - 1]) else s
  }

  /**
    `s.trim()`: neither end of what is left is trimmable, and it is empty
    (so `!s.trim()` holds) exactly when every character of `s` is trimmable.
   */
  function Trim(s: string): (r: string)
    ensures |r| <= |s|
    ensures r != "" ==> !IsTrimmable(r[0]) && !IsTrimmable(r[|r| - 1])
    ensures r == "" <==> forall i :: 0 <= i < |s| ==> IsTrimmable(s[i])
  {
    TrimEnd(TrimStart(s))
  }

  /** How the promise `sendMessage` returns settles. */
  datatype TurnResult =
    | Ignored   // the guard returned before anything happened
    | Resolved  // the stream ran to its end
    | Rejected  // the stream threw; the error propagates after the finally block

  /** How many of `n` produced chunks are delivered when the user aborts after `cancelAfter` of them. */
  function DeliveredCount(n: nat, cancelAfter: Option<nat>): (k: nat)
    ensures k <= n
  {
    if cancelAfter.Some? && cancelAfter.value < n then cancelAfter.value else n
  }

  /** The browser's AbortController, reduced to whether its signal has fired. */
  class AbortController {
    var aborted: bool

    constructor ()
      ensures !aborted
    {
      aborted := false;
    }

    method Abort()
      modifies this
      ensures aborted
    {
      aborted := true;
    }
  }

  class ChatSession {
    var messages: seq<ChatMessage>
    var isStreaming: bool
    var abortRef: AbortController?

    // The transcript as the current (or last) turn began, and the chunks delivered since.
    ghost var turnStart: seq<ChatMessage>
    ghost var delivered: seq<Chunk>

    /**
      Busy exactly while an abort controller is installed; the transcript is
      the turn's fold and holds at most one assistant-text entry per run.
     */
    ghost predicate Valid()
      reads this
    {
      && (isStreaming <==> abortRef != null)
      && messages == Fold(turnStart, delivered)
      && UniqueRuns(messages)
    }

    /** The hook's initial state: no messages, idle, no controller. */
    constructor ()
      ensures Valid()
      ensures messages == [] && !isStreaming && abortRef == null
    {
      messages := [];
      isStreaming := false;
      abortRef := null;
      turnStart := [];
      delivered := [];
    }

    /**
      The synchronous start of `sendMessage`: a blank message or a call while
      busy changes nothing; otherwise the user message is appended, the
      session becomes busy and a fresh, unfired abort controller is installed,
      all before any chunk arrives.
     */
    method StartTurn(content: string, id: string) returns (started: bool)
      requires Valid()
      modifies this
      ensures Valid()
      ensures started <==> Trim(content) != "" && !old(isStreaming)
      ensures !started ==> unchanged(this)
      ensures started ==> && messages == old(messages) + [UserMessage(id, content)]
                          && isStreaming && abortRef != null && fresh(abortRef) && !abortRef.aborted
                          && turnStart == messages && delivered == []
    {
      if Trim(content) == "" || isStreaming {
        return false;
      }
      messages := messages + [UserMessage(id, content)];
      assert UniqueRuns(messages) by {
        assert !messages[|messages| - 1].AssistantText?;
        assert messages[..|messages| - 1] == old(messages);
      }
      isStreaming := true;
      abortRef := new AbortController();
      turnStart := messages;
      delivered := [];
      started := true;
    }

    /** The `onChunk` callback: the transcript steps through the reducer, nothing else changes. */
    method HandleChunk(c: Chunk)
      requires Valid()
      modifies this
      ensures Valid()
      ensures messages == Step(old(messages), c)
      ensures isStreaming == old(isStreaming) && abortRef == old(abortRef)
      ensures turnStart == old(turnStart) && delivered == old(delivered) + [c]
    {
      assert (delivered + [c])[..|delivered|] == delivered;
      StepKeepsRunsUnique(messages, c);
      messages := Step(messages, c);
      delivered := delivered + [c];
    }

    /** `abort`: fires the installed controller, if any; the session state is untouched. */
    method Abort()
      requires Valid()
      modifies abortRef
      ensures Valid()
      ensures abortRef != null ==> abortRef.aborted
    {
      if abortRef != null {
        abortRef.Abort();
      }
    }

    /** The `finally` block: the controller is released and the session is idle again. */
    method EndTurn()
      requires Valid()
      modifies this
      ensures Valid()
      ensures !isStreaming && abortRef == null
      ensures messages == old(messages) && turnStart == old(turnStart) && delivered == old(delivered)
    {
      abortRef := null;
      isStreaming := false;
    }

    /**
      `await stream.processDataStream({ onChunk: handleChunk })`: the chunks
      are handed to `HandleChunk` in delivery order until the transport runs
      out or the user aborts, once `cancelAfter` chunks have been delivered.
     */
    method Stream(produced: seq<Chunk>, cancelAfter: Option<nat>)
      requires Valid() && isStreaming && abortRef != null && !abortRef.aborted && delivered == []
      modifies this, abortRef
      ensures Valid() && isStreaming && abortRef == old(abortRef) && turnStart == old(turnStart)
      ensures delivered == produced[..DeliveredCount(|produced|, cancelAfter)]
      ensures abortRef.aborted <==> cancelAfter.Some? && cancelAfter.value < |produced|
    {
      var handle := abortRef;
      var i := 0;
      while i < |produced|
        invariant Valid() && isStreaming && abortRef == handle && handle != null && !handle.aborted
        invariant i <= |produced|
        invariant cancelAfter.Some? ==> i <= cancelAfter.value
        invariant turnStart == old(turnStart)
        invariant delivered == produced[..i]
      {
        if cancelAfter == Some(i) {
          Abort();
          assert i == DeliveredCount(|produced|, cancelAfter);
          return;
        }
        HandleChunk(produced[i]);
        i := i + 1;
      }
      assert i == DeliveredCount(|produced|, cancelAfter);
    }

    /**
      A whole `sendMessage` call. The transport would deliver `produced`
      (already cut short if it breaks, in which case `failed` holds); the user
      aborts once `cancelAfter` chunks have been delivered, if ever. However the
      stream ends, the session is idle with no controller, and the transcript
      is the user-appended transcript folded over exactly the delivered prefix:
      nothing is rolled back and nothing is synthesized.
     */
    method SendMessage(content: string, id: string, produced: seq<Chunk>,
                       cancelAfter: Option<nat>, failed: bool) returns (r: TurnResult)
      requires Valid()
      modifies this
      ensures Valid()
      ensures r == Ignored <==> Trim(content) == "" || old(isStreaming)
      ensures r == Ignored ==> unchanged(this)
      ensures r != Ignored ==> && (r == Rejected <==> failed)
                               && !isStreaming && abortRef == null
                               && turnStart == old(messages) + [UserMessage(id, content)]
                               && delivered == produced[..DeliveredCount(|produced|, cancelAfter)]
                               && messages == Fold(turnStart, delivered)
      ensures r != Ignored ==> && |old(messages)| < |messages|
                               && messages[|old(messages)|] == UserMessage(id, content)
                               && forall i :: 0 <= i < |old(messages)| ==> SameIdentity(old(messages)[i], messages[i])
    {
      var started := StartTurn(content, id);
      if !started {
        return Ignored;
      }
      Stream(produced, cancelAfter);
      EndTurn();
      FoldOnlyAppends(turnStart, delivered);
      r := if failed then Rejected else Resolved;
    }
  }

  /**
    A turn cut short: the user asks about the weather, one text fragment
    arrives, the user aborts, and the session is idle with the partial text kept.
   */
  method CancelMidRun() returns (session: ChatSession)
    ensures session.messages == [UserMessage("u1", "what is the weather in London?"),
                                 AssistantText("run-1", "It is")]
    ensures !session.isStreaming && session.abortRef == null
  {
    session := new ChatSession();
    var question := "what is the weather in London?";
    assert !IsTrimmable(question[0]);
    var started := session.StartTurn(question, "u1");
    assert started;
    var asked := [UserMessage("u1", question)];
    var busy := session.StartTurn("again", "u2");
    assert !busy && session.messages == asked;
    TextDeltaAppendsRun(asked, "run-1", "It is");
    session.HandleChunk(TextDelta("run-1", "It is"));
    session.Abort();
    session.EndTurn();
  }
}
