// The messages of a conversation and the recovery from an echo loop
// (agent/ovs_agent/session.py).
module ChatHistory {
  import opened Prelude

  datatype Call = Call(id: string, payload: string)

  datatype Message =
    | System(text: string)
    | User(text: string)
    | Assistant(content: Option<string>, calls: seq<Call>)
    | Tool(callId: string, text: string)

  type History = seq<Message>

  const ECHO_WINDOW := 3
  const ECHO_MAX_LEN := 40

  // The assistant's natural-language replies, oldest first.
  function Replies(h: History): seq<string> {
    if h == [] then []
    else
      Replies(h[..|h| - 1]) +
      (if h[|h| - 1].Assistant? && h[|h| - 1].content.Some? then [h[|h| - 1].content.value] else [])
  }

  // Three consecutive replies from position i are the same short text.
  predicate EchoAt(r: seq<string>, i: nat)
    requires i + ECHO_WINDOW <= |r|
  {
    |r[i]| <= ECHO_MAX_LEN && forall k :: i <= k < i + ECHO_WINDOW ==> r[k] == r[i]
  }

  // The latest replies are an echo.
  predicate Echoing(h: History) {
    var r := Replies(h);
    |r| >= ECHO_WINDOW && EchoAt(r, |r| - ECHO_WINDOW)
  }

  // The last three replies are one text of at most forty characters.
  predicate ThriceShort(r: seq<string>) {
    |r| >= 3 && r[|r| - 3] == r[|r| - 2] == r[|r| - 1] && |r[|r| - 1]| <= 40
  }

  lemma EchoingExactly(h: History)
    ensures Echoing(h) <==> ThriceShort(Replies(h))
  {
    var r := Replies(h);
    if ThriceShort(r) {
      assert forall k :: |r| - 3 <= k < |r| ==> r[k] == r[|r| - 3];
    }
  }

  // No echo anywhere.
  predicate EchoFree(h: History) {
    var r := Replies(h);
    forall i :: 0 <= i && i + ECHO_WINDOW <= |r| ==> !EchoAt(r, i)
  }

  datatype Op =
    | AddUser(text: string)
    | AddAssistant(text: string)
    | AddToolCalls(content: Option<string>, calls: seq<Call>)
    | AddToolResult(callId: string, text: string)
    | RollbackTo(anchor: int)
    | Reset

  function Truncate(h: History, anchor: int): History {
    var at := if anchor < 0 then 0 else anchor;
    if at >= |h| then h else h[..at]
  }

  function Recovered(h: History): History {
    if Echoing(h) then [] else h
  }

  function Apply(h: History, op: Op): History {
    match op
    case AddUser(text) => h + [User(text)]
    case AddAssistant(text) => Recovered(h + [Assistant(Some(text), [])])
    case AddToolCalls(content, calls) => h + [Assistant(content, calls)]
    case AddToolResult(id, text) => h + [Tool(id, text)]
    case RollbackTo(anchor) => Truncate(h, anchor)
    case Reset => []
  }

  function ApplyAll(h: History, ops: seq<Op>): History
    decreases ops
  {
    if ops == [] then h else ApplyAll(Apply(h, ops[0]), ops[1..])
  }

  // A rollback keeps exactly what precedes the anchor; one below zero keeps
  // nothing, and one beyond the end everything.
  lemma RollbackKeeps(h: History, anchor: int)
    ensures var kept := Apply(h, RollbackTo(anchor));
            kept <= h && |kept| == Min(|h|, Max(0, anchor))
    ensures Apply(Apply(h, RollbackTo(anchor)), RollbackTo(anchor)) == Apply(h, RollbackTo(anchor))
  {
  }

  // Messages added since the anchor was taken are what it drops.
  lemma RollbackUndoes(h: History, more: seq<Message>)
    ensures Apply(h + more, RollbackTo(|h|)) == h
  {
  }

  // ── the echo invariant ───────────────────────────────────────────

  lemma RepliesAppend(h: History, m: Message)
    ensures Replies(h + [m]) ==
            Replies(h) + (if m.Assistant? && m.content.Some? then [m.content.value] else [])
  {
    assert (h + [m])[..|h|] == h;
  }

  lemma {:induction false} RepliesPrefix(h: History, n: nat)
    requires n <= |h|
    ensures Replies(h[..n]) <= Replies(h)
  {
    if n < |h| {
      RepliesPrefix(h[..|h| - 1], n);
      assert h[..|h| - 1][..n] == h[..n];
    } else {
      assert h[..n] == h;
    }
  }

  lemma PrefixEchoFree(h: History, n: nat)
    requires n <= |h| && EchoFree(h)
    ensures EchoFree(h[..n])
  {
    RepliesPrefix(h, n);
    var r, r' := Replies(h), Replies(h[..n]);
    forall i | 0 <= i && i + ECHO_WINDOW <= |r'| ensures !EchoAt(r', i) {
      assert forall k :: i <= k < i + ECHO_WINDOW ==> r'[k] == r[k];
      assert !EchoAt(r, i);
    }
  }

  // Appending a message to an echo-free history breaks it only at the end.
  lemma AppendEcho(h: History, m: Message)
    requires EchoFree(h)
    ensures EchoFree(h + [m]) <==> !(m.Assistant? && m.content.Some? && Echoing(h + [m]))
  {
    RepliesAppend(h, m);
    var r, r' := Replies(h), Replies(h + [m]);
    if r' != r {
      forall i | 0 <= i && i + ECHO_WINDOW <= |r| ensures !EchoAt(r', i) {
        assert forall k :: i <= k < i + ECHO_WINDOW ==> r'[k] == r[k];
        assert !EchoAt(r, i);
      }
    }
  }

  // The operation that skips the check: a tool call whose spoken preamble
  // repeats the two replies before it.
  predicate PreambleEchoes(h: History, op: Op) {
    op.AddToolCalls? && op.content.Some? && Echoing(h + [Assistant(op.content, op.calls)])
  }

  // Every operation keeps the history free of echoes, except exactly that one.
  lemma EchoFreeExactly(h: History, op: Op)
    requires EchoFree(h)
    ensures EchoFree(Apply(h, op)) <==> !PreambleEchoes(h, op)
  {
    match op
    case AddUser(text) => AppendEcho(h, User(text));
    case AddAssistant(text) => AppendEcho(h, Assistant(Some(text), []));
    case AddToolCalls(content, calls) => AppendEcho(h, Assistant(content, calls));
    case AddToolResult(id, text) => AppendEcho(h, Tool(id, text));
    case RollbackTo(anchor) =>
      if Truncate(h, anchor) != h {
        PrefixEchoFree(h, if anchor < 0 then 0 else anchor);
      }
    case Reset =>
  }

  // Over every run in which tool calls carry no preamble, no three consecutive
  // replies are identical and short.
  lemma {:induction false} NoEchoInAnyRun(h: History, ops: seq<Op>)
    requires EchoFree(h)
    requires forall i :: 0 <= i < |ops| ==> !(ops[i].AddToolCalls? && ops[i].content.Some?)
    ensures EchoFree(ApplyAll(h, ops))
    decreases ops
  {
    if ops != [] {
      assert !(ops[0].AddToolCalls? && ops[0].content.Some?);
      EchoFreeExactly(h, ops[0]);
      assert forall i :: 0 <= i < |ops[1..]| ==> ops[1..][i] == ops[i + 1];
      NoEchoInAnyRun(Apply(h, ops[0]), ops[1..]);
    }
  }

  // With preambles it can happen.
  lemma PreambleEchoExample(text: string, calls: seq<Call>)
    requires |text| <= ECHO_MAX_LEN
    ensures var op := AddToolCalls(Some(text), calls);
            !EchoFree(ApplyAll([], [op, op, op]))
  {
    var op := AddToolCalls(Some(text), calls);
    var m := Assistant(Some(text), calls);
    RepliesAppend([], m);
    RepliesAppend([m], m);
    RepliesAppend([m, m], m);
    assert [m] + [m] == [m, m] && [m, m] + [m] == [m, m, m];
    assert [op, op, op][1..] == [op, op] && [op, op][1..] == [op];
    assert ApplyAll([], [op, op, op]) == ApplyAll([m], [op, op]) == ApplyAll([m, m], [op]) == [m, m, m];
    assert Replies([m, m, m]) == [text, text, text];
    assert EchoAt(Replies([m, m, m]), 0);
  }
}
