// Trimming a conversation to a token budget, and the session object
// (agent/ovs_agent/session.py).
module SessionTrim {
  import opened Prelude
  import opened ChatHistory

  // The token counter and the JSON form of a list of tool calls.
  datatype Meter = Meter(count: string -> nat, dump: seq<Call> -> string)

  function Body(m: Message): string {
    match m
    case System(text) => text
    case User(text) => text
    case Tool(_, text) => text
    case Assistant(content, _) => if content.Some? then content.value else ""
  }

  function Cost(meter: Meter, m: Message): (c: nat)
    ensures c >= 4
  {
    var calls := if m.Assistant? then m.calls else [];
    (if Body(m) != "" then meter.count(Body(m)) else 0)
    + (if calls != [] then meter.count(meter.dump(calls)) else 0)
    + 4
  }

  function Total(meter: Meter, ms: seq<Message>): nat {
    if ms == [] then 0 else Cost(meter, ms[0]) + Total(meter, ms[1..])
  }

  // What a message is charged: its text, its tool calls in their JSON form, and
  // four tokens of framing.
  lemma CostCharges(meter: Meter, text: string, calls: seq<Call>, id: string)
    requires text != "" && calls != []
    ensures var (asked, said) := (meter.count(meter.dump(calls)), meter.count(text));
            && Cost(meter, User(text)) == Cost(meter, System(text)) == Cost(meter, Tool(id, text)) == said + 4
            && Cost(meter, Assistant(Some(text), [])) == said + 4
            && Cost(meter, Assistant(Some(text), calls)) == said + asked + 4
            && Cost(meter, Assistant(None, calls)) == Cost(meter, Assistant(Some(""), calls)) == asked + 4
            && Cost(meter, Assistant(None, [])) == Cost(meter, User("")) == 4
  {
  }

  // int(max * 0.75): the whole part of three quarters, toward zero.
  function Budget(max: int): (b: int)
    ensures max >= 0 ==> 4 * b <= 3 * max < 4 * (b + 1)
    ensures max < 0 ==> 4 * (b - 1) < 3 * max <= 4 * b
  {
    if max >= 0 then 3 * max / 4 else -(3 * -max / 4)
  }

  lemma BudgetExactly(max: int, b: int)
    ensures b == Budget(max) <==>
            if max >= 0 then 4 * b <= 3 * max < 4 * (b + 1) else 4 * (b - 1) < 3 * max <= 4 * b
  {
  }

  // These messages cost at most three quarters of the limit.
  predicate Affordable(meter: Meter, max: int, ms: seq<Message>) {
    4 * Total(meter, ms) <= 3 * max
  }

  lemma AffordableIsBudget(meter: Meter, max: int, ms: seq<Message>)
    requires ms != []
    ensures Affordable(meter, max, ms) <==> Total(meter, ms) <= Budget(max)
  {
    assert Total(meter, ms) >= 4;
  }

  // ── turns ────────────────────────────────────────────────────────

  type Turn = seq<Message>

  // The number of messages before the first user message.
  function Lead(ms: seq<Message>): (n: nat)
    ensures n <= |ms|
    ensures n < |ms| ==> ms[n].User?
    ensures forall i :: 0 <= i < n ==> !ms[i].User?
  {
    if ms == [] || ms[0].User? then 0 else 1 + Lead(ms[1..])
  }

  // A turn runs from a user message up to the next one.
  function Turns(ms: seq<Message>): seq<Turn>
    decreases |ms|
  {
    if ms == [] then []
    else
      var n := 1 + Lead(ms[1..]);
      [ms[..n]] + Turns(ms[n..])
  }

  function Flat(turns: seq<Turn>): seq<Message> {
    if turns == [] then [] else turns[0] + Flat(turns[1..])
  }

  function TurnsOf(rest: seq<Message>): seq<Turn> {
    Turns(rest[Lead(rest)..])
  }

  // The first turn from which the rest fits, or the latest turn.
  function FirstFit(meter: Meter, turns: seq<Turn>, budget: int): (k: nat)
    requires turns != []
    ensures k < |turns|
  {
    if Total(meter, Flat(turns)) <= budget || |turns| == 1 then 0
    else 1 + FirstFit(meter, turns[1..], budget)
  }

  function DropOldest(meter: Meter, ms: seq<Message>, budget: int): seq<Message> {
    if ms == [] || Total(meter, ms) <= budget then ms else DropOldest(meter, ms[1..], budget)
  }

  // What follows the system prompt once trimmed.
  function Trimmed(meter: Meter, rest: seq<Message>, budget: int): seq<Message> {
    var turns := TurnsOf(rest);
    if turns == [] then DropOldest(meter, rest, budget)
    else if Total(meter, Flat(turns)) <= budget then rest
    else Flat(turns[FirstFit(meter, turns, budget)..])
  }

  // ── the shape of turns ───────────────────────────────────────────

  lemma {:induction false} TotalConcat(meter: Meter, a: seq<Message>, b: seq<Message>)
    ensures Total(meter, a + b) == Total(meter, a) + Total(meter, b)
  {
    if a == [] {
      assert a + b == b;
    } else {
      assert (a + b)[1..] == a[1..] + b;
      TotalConcat(meter, a[1..], b);
    }
  }

  lemma {:induction false} FlatConcat(a: seq<Turn>, b: seq<Turn>)
    ensures Flat(a + b) == Flat(a) + Flat(b)
  {
    if a == [] {
      assert a + b == b;
    } else {
      assert (a + b)[1..] == a[1..] + b;
      FlatConcat(a[1..], b);
      assert a[0] + (Flat(a[1..]) + Flat(b)) == (a[0] + Flat(a[1..])) + Flat(b);
    }
  }

  // A turn is a user message followed by messages of others.
  predicate IsTurn(t: Turn) {
    t != [] && t[0].User? && forall i :: 1 <= i < |t| ==> !t[i].User?
  }

  lemma FirstTurn(ms: seq<Message>)
    requires ms != [] && ms[0].User?
    ensures var n := 1 + Lead(ms[1..]); IsTurn(ms[..n]) && (n < |ms| ==> ms[n].User?)
  {
    var n := 1 + Lead(ms[1..]);
    assert forall i :: 1 <= i < n ==> ms[i] == ms[1..][i - 1];
    if n < |ms| { assert ms[n] == ms[1..][n - 1]; }
  }

  lemma {:induction false} TurnsPartition(ms: seq<Message>)
    requires ms != [] ==> ms[0].User?
    ensures Flat(Turns(ms)) == ms
    ensures forall t :: t in Turns(ms) ==> IsTurn(t)
    decreases |ms|
  {
    if ms != [] {
      var n := 1 + Lead(ms[1..]);
      FirstTurn(ms);
      TurnsPartition(ms[n..]);
      assert ms[..n] + ms[n..] == ms;
      assert Turns(ms) == [ms[..n]] + Turns(ms[n..]);
    }
  }

  lemma LeadAtUser(t: Turn, ms: seq<Message>)
    requires IsTurn(t) && (ms != [] ==> ms[0].User?)
    ensures 1 + Lead((t + ms)[1..]) == |t|
  {
    var all := (t + ms)[1..];
    assert forall i :: 0 <= i < |t| - 1 ==> all[i] == t[i + 1];
    if ms != [] { assert all[|t| - 1] == ms[0]; }
    assert Lead(all) == |t| - 1;
  }

  lemma {:induction false} FlatStartsWithUser(turns: seq<Turn>)
    requires forall t :: t in turns ==> IsTurn(t)
    ensures Flat(turns) != [] ==> Flat(turns)[0].User?
    ensures turns != [] ==> Flat(turns) != []
  {
    if turns != [] {
      assert IsTurn(turns[0]);
    }
  }

  // Grouping what was grouped gives the same turns back.
  lemma {:induction false} RegroupTurns(turns: seq<Turn>)
    requires forall t :: t in turns ==> IsTurn(t)
    ensures Turns(Flat(turns)) == turns && Lead(Flat(turns)) == 0
  {
    FlatStartsWithUser(turns);
    if turns != [] {
      FlatStartsWithUser(turns[1..]);
      RegroupTurns(turns[1..]);
      assert IsTurn(turns[0]);
      TurnsCons(turns[0], Flat(turns[1..]));
      assert turns == [turns[0]] + turns[1..];
    }
  }

  lemma TurnsCons(t: Turn, ms: seq<Message>)
    requires IsTurn(t) && (ms != [] ==> ms[0].User?)
    ensures Turns(t + ms) == [t] + Turns(ms) && Lead(t + ms) == 0
  {
    LeadAtUser(t, ms);
    DropFirst(t, ms, |t|);
    assert t[..|t|] == t && t[|t|..] == [] && [] + ms == ms;
  }

  // ── optimality ───────────────────────────────────────────────────

  // Fewer turns cost less.
  lemma {:induction false} SuffixCheaper(meter: Meter, turns: seq<Turn>, i: nat, j: nat)
    requires i <= j <= |turns|
    ensures Total(meter, Flat(turns[j..])) <= Total(meter, Flat(turns[i..]))
    decreases j - i
  {
    if i < j {
      SuffixCheaper(meter, turns, i + 1, j);
      assert turns[i..] == [turns[i]] + turns[i + 1..];
      FlatConcat([turns[i]], turns[i + 1..]);
      TotalConcat(meter, Flat([turns[i]]), Flat(turns[i + 1..]));
    }
  }

  // k is the start of the longest suffix of whole turns that fits; or nothing
  // fits and it is the latest turn.
  predicate BestSuffix(meter: Meter, turns: seq<Turn>, budget: int, k: nat) {
    && k < |turns|
    && (Total(meter, Flat(turns[k..])) <= budget || k == |turns| - 1)
    && forall j :: 0 <= j < k ==> Total(meter, Flat(turns[j..])) > budget
  }

  lemma {:induction false} FirstFitBest(meter: Meter, turns: seq<Turn>, budget: int)
    requires turns != []
    ensures BestSuffix(meter, turns, budget, FirstFit(meter, turns, budget))
  {
    assert turns[0..] == turns;
    if !(Total(meter, Flat(turns)) <= budget || |turns| == 1) {
      FirstFitBest(meter, turns[1..], budget);
      var k := FirstFit(meter, turns[1..], budget);
      assert turns[1..][k..] == turns[k + 1..];
      forall j | 0 <= j < k + 1 ensures Total(meter, Flat(turns[j..])) > budget {
        if j > 0 { assert turns[1..][j - 1..] == turns[j..]; }
      }
    }
  }

  lemma BestSuffixUnique(meter: Meter, turns: seq<Turn>, budget: int, k: nat, l: nat)
    requires BestSuffix(meter, turns, budget, k) && BestSuffix(meter, turns, budget, l)
    ensures k == l
  {
  }

  // Over budget, with at least one user message: the result is the longest
  // suffix of whole turns whose cost fits, or the latest turn alone if even
  // that does not; and every longer suffix of whole turns is over budget.
  lemma TrimKeepsLongestSuffix(meter: Meter, rest: seq<Message>, budget: int, k: nat)
    requires TurnsOf(rest) != [] && Total(meter, Flat(TurnsOf(rest))) > budget
    ensures BestSuffix(meter, TurnsOf(rest), budget, k) ==>
              Trimmed(meter, rest, budget) == Flat(TurnsOf(rest)[k..])
    ensures BestSuffix(meter, TurnsOf(rest), budget, FirstFit(meter, TurnsOf(rest), budget))
    ensures Total(meter, Trimmed(meter, rest, budget)) <= budget ||
            Trimmed(meter, rest, budget) == TurnsOf(rest)[|TurnsOf(rest)| - 1]
  {
    var turns := TurnsOf(rest);
    FirstFitBest(meter, turns, budget);
    if BestSuffix(meter, turns, budget, k) {
      BestSuffixUnique(meter, turns, budget, k, FirstFit(meter, turns, budget));
    }
    var last := turns[|turns| - 1];
    assert turns[|turns| - 1..] == [last];
    assert Flat([last]) == last;
  }

  // What a limit keeps, in tokens of the limit itself: everything when the
  // turns cost at most three quarters of it; otherwise the longest affordable
  // suffix of whole turns, or the latest turn alone.
  ghost predicate KeepsTurns(meter: Meter, max: int, rest: seq<Message>, kept: seq<Message>) {
    var turns := TurnsOf(rest);
    if Affordable(meter, max, Flat(turns)) then kept == rest
    else exists k :: 0 <= k < |turns| && KeepsFrom(meter, max, turns, kept, k)
  }

  predicate KeepsFrom(meter: Meter, max: int, turns: seq<Turn>, kept: seq<Message>, k: nat)
    requires k < |turns|
  {
    && kept == Flat(turns[k..])
    && (Affordable(meter, max, kept) || k == |turns| - 1)
    && forall j :: 0 <= j < k ==> !Affordable(meter, max, Flat(turns[j..]))
  }

  // Without a user message: the longest affordable suffix of single messages.
  ghost predicate KeepsMessages(meter: Meter, max: int, rest: seq<Message>, kept: seq<Message>) {
    exists n :: 0 <= n <= |rest| && KeepsTail(meter, max, rest, kept, n)
  }

  predicate KeepsTail(meter: Meter, max: int, rest: seq<Message>, kept: seq<Message>, n: nat)
    requires n <= |rest|
  {
    && kept == rest[n..]
    && (n == |rest| || Affordable(meter, max, kept))
    && forall j :: 0 <= j < n ==> !Affordable(meter, max, rest[j..])
  }

  ghost predicate KeepsWithin(meter: Meter, max: int, rest: seq<Message>, kept: seq<Message>) {
    if TurnsOf(rest) == [] then KeepsMessages(meter, max, rest, kept) else KeepsTurns(meter, max, rest, kept)
  }

  lemma TrimKeepsWithin(meter: Meter, max: int, rest: seq<Message>)
    ensures KeepsWithin(meter, max, rest, Trimmed(meter, rest, Budget(max)))
  {
    if TurnsOf(rest) == [] {
      var n := FallbackKeepsLongestSuffix(meter, rest, Budget(max));
      forall j | 0 <= j < n || (j == n && n < |rest|)
        ensures Affordable(meter, max, rest[j..]) <==> Total(meter, rest[j..]) <= Budget(max)
      {
        AffordableIsBudget(meter, max, rest[j..]);
      }
      assert KeepsTail(meter, max, rest, rest[n..], n);
    } else {
      TurnsWithin(meter, max, rest);
    }
  }

  lemma TurnsWithin(meter: Meter, max: int, rest: seq<Message>)
    requires TurnsOf(rest) != []
    ensures KeepsTurns(meter, max, rest, Trimmed(meter, rest, Budget(max)))
  {
    var turns := TurnsOf(rest);
    TurnsPartition(rest[Lead(rest)..]);
    forall j | 0 <= j < |turns|
      ensures Affordable(meter, max, Flat(turns[j..])) <==> Total(meter, Flat(turns[j..])) <= Budget(max)
    {
      assert forall t :: t in turns[j..] ==> t in turns;
      FlatStartsWithUser(turns[j..]);
      AffordableIsBudget(meter, max, Flat(turns[j..]));
    }
    assert turns[0..] == turns;
    FirstFitBest(meter, turns, Budget(max));
    var k := FirstFit(meter, turns, Budget(max));
    assert KeepsFrom(meter, max, turns, Flat(turns[k..]), k);
  }

  // ── idempotence ──────────────────────────────────────────────────

  lemma {:induction false} DropOldestFits(meter: Meter, ms: seq<Message>, budget: int)
    requires forall i :: 0 <= i < |ms| ==> !ms[i].User?
    ensures var out := DropOldest(meter, ms, budget);
            && (out == [] || Total(meter, out) <= budget)
            && (forall i :: 0 <= i < |out| ==> !out[i].User?)
  {
    if ms != [] && Total(meter, ms) > budget {
      assert forall i :: 0 <= i < |ms[1..]| ==> ms[1..][i] == ms[i + 1];
      DropOldestFits(meter, ms[1..], budget);
    }
  }

  // Without a user message the same holds message by message: the result is
  // the longest suffix that fits.
  lemma {:induction false} FallbackKeepsLongestSuffix(meter: Meter, ms: seq<Message>, budget: int) returns (n: nat)
    ensures n <= |ms| && DropOldest(meter, ms, budget) == ms[n..]
    ensures n == |ms| || Total(meter, ms[n..]) <= budget
    ensures forall j :: 0 <= j < n ==> Total(meter, ms[j..]) > budget
  {
    assert ms[0..] == ms;
    if ms == [] || Total(meter, ms) <= budget {
      return 0;
    }
    var m := FallbackKeepsLongestSuffix(meter, ms[1..], budget);
    n := m + 1;
    assert ms[1..][m..] == ms[n..];
    forall j | 0 <= j < n ensures Total(meter, ms[j..]) > budget {
      if j > 0 { assert ms[1..][j - 1..] == ms[j..]; }
    }
  }

  lemma {:induction false} NoUserNoTurns(ms: seq<Message>)
    requires forall i :: 0 <= i < |ms| ==> !ms[i].User?
    ensures Lead(ms) == |ms| && TurnsOf(ms) == []
  {
  }

  lemma TurnsEmptyMeansNoUser(ms: seq<Message>)
    requires TurnsOf(ms) == []
    ensures forall i :: 0 <= i < |ms| ==> !ms[i].User?
  {
    assert Lead(ms) == |ms|;
  }

  // Trimming a trimmed conversation changes nothing.
  lemma TrimIdempotent(meter: Meter, rest: seq<Message>, budget: int)
    ensures Trimmed(meter, Trimmed(meter, rest, budget), budget) == Trimmed(meter, rest, budget)
  {
    var turns := TurnsOf(rest);
    if turns == [] {
      TurnsEmptyMeansNoUser(rest);
      DropOldestFits(meter, rest, budget);
      NoUserNoTurns(DropOldest(meter, rest, budget));
    } else if Total(meter, Flat(turns)) > budget {
      TurnsPartition(rest[Lead(rest)..]);
      FirstFitBest(meter, turns, budget);
      var k := FirstFit(meter, turns, budget);
      var kept := turns[k..];
      assert forall t :: t in kept ==> t in turns;
      RegroupTurns(kept);
      assert Flat(kept)[0..] == Flat(kept);
      assert TurnsOf(Flat(kept)) == kept;
      if |kept| == 1 {
        assert kept[0..] == kept;
      }
    }
  }

  // ── tool rounds stay whole ───────────────────────────────────────

  predicate Calls(m: Message, id: string) {
    m.Assistant? && exists k :: 0 <= k < |m.calls| && m.calls[k].id == id
  }

  // The result at j answers a call made at i, with no user message in between.
  predicate Answers(ms: seq<Message>, i: nat, j: nat)
    requires i < j < |ms|
  {
    ms[j].Tool? && Calls(ms[i], ms[j].callId) && forall k :: i < k <= j ==> !ms[k].User?
  }

  // The result at j answers some call from position lo on.
  predicate AnsweredFrom(ms: seq<Message>, lo: nat, j: nat)
    requires j < |ms|
  {
    exists i :: lo <= i < j && Answers(ms, i, j)
  }

  predicate WellFormed(ms: seq<Message>) {
    forall j :: 0 <= j < |ms| && ms[j].Tool? ==> AnsweredFrom(ms, 0, j)
  }

  lemma ShiftAnswers(ms: seq<Message>, n: nat, i: nat, j: nat)
    requires n <= i < j < |ms|
    ensures Answers(ms, i, j) <==> Answers(ms[n..], i - n, j - n)
  {
    assert forall k :: n <= k < |ms| ==> ms[k] == ms[n..][k - n];
  }

  lemma ShiftAnswered(ms: seq<Message>, n: nat, j: nat)
    requires n <= j < |ms|
    ensures AnsweredFrom(ms, n, j) <==> AnsweredFrom(ms[n..], 0, j - n)
  {
    if AnsweredFrom(ms, n, j) {
      var i :| n <= i < j && Answers(ms, i, j);
      ShiftAnswers(ms, n, i, j);
    }
    if AnsweredFrom(ms[n..], 0, j - n) {
      var i :| 0 <= i < j - n && Answers(ms[n..], i, j - n);
      ShiftAnswers(ms, n, n + i, j);
    }
  }

  // The result at j loses every call it answers when what precedes n goes.
  predicate Splits(ms: seq<Message>, n: nat, j: nat)
    requires j < |ms|
  {
    n <= j && ms[j].Tool? && !AnsweredFrom(ms, n, j)
  }

  lemma SuffixSplits(ms: seq<Message>, n: nat)
    requires n <= |ms|
    ensures !WellFormed(ms[n..]) <==> exists j :: 0 <= j < |ms| && Splits(ms, n, j)
  {
    if !WellFormed(ms[n..]) {
      var j :| 0 <= j < |ms[n..]| && ms[n..][j].Tool? && !AnsweredFrom(ms[n..], 0, j);
      ShiftAnswered(ms, n, n + j);
      assert Splits(ms, n, n + j);
    }
    if j :| 0 <= j < |ms| && Splits(ms, n, j) {
      ShiftAnswered(ms, n, j);
      assert ms[n..][j - n].Tool?;
    }
  }

  lemma SuffixWellFormed(ms: seq<Message>, n: nat)
    requires n < |ms| && ms[n].User? && WellFormed(ms)
    ensures WellFormed(ms[n..])
  {
    SuffixSplits(ms, n);
    forall j | n <= j < |ms| && ms[j].Tool? ensures AnsweredFrom(ms, n, j) {
      assert AnsweredFrom(ms, 0, j);
      var i :| 0 <= i < j && Answers(ms, i, j);
      assert i >= n;
    }
  }

  // The result is a suffix that begins at a user message, or everything.
  lemma TrimIsUserSuffix(meter: Meter, rest: seq<Message>, budget: int) returns (n: nat)
    requires TurnsOf(rest) != []
    ensures n < |rest| && Trimmed(meter, rest, budget) == rest[n..] && (n == 0 || rest[n].User?)
  {
    var turns := TurnsOf(rest);
    var lead := Lead(rest);
    if Total(meter, Flat(turns)) <= budget {
      n := 0;
    } else {
      TurnsPartition(rest[lead..]);
      var k := FirstFit(meter, turns, budget);
      assert turns == turns[..k] + turns[k..];
      FlatConcat(turns[..k], turns[k..]);
      n := lead + |Flat(turns[..k])|;
      assert rest[lead..][|Flat(turns[..k])|..] == rest[n..];
      assert forall t :: t in turns[k..] ==> t in turns;
      FlatStartsWithUser(turns[k..]);
      assert rest[n..][0] == rest[n];
    }
  }

  // With at least one user message, a tool result is never kept without the
  // call it answers.
  lemma ToolRoundsStayWhole(meter: Meter, rest: seq<Message>, budget: int)
    requires TurnsOf(rest) != [] && WellFormed(rest)
    ensures WellFormed(Trimmed(meter, rest, budget))
  {
    var n := TrimIsUserSuffix(meter, rest, budget);
    if n > 0 {
      SuffixWellFormed(rest, n);
    } else {
      assert rest[0..] == rest;
    }
  }

  lemma {:induction false} TotalSuffix(meter: Meter, ms: seq<Message>, i: nat, j: nat)
    requires i <= j <= |ms|
    ensures Total(meter, ms[j..]) <= Total(meter, ms[i..])
  {
    assert ms[i..] == ms[i..j] + ms[j..];
    TotalConcat(meter, ms[i..j], ms[j..]);
  }

  predicate Fits(meter: Meter, ms: seq<Message>, budget: int, i: nat)
    requires i <= |ms|
  {
    Total(meter, ms[i..]) <= budget
  }

  // The messages from the result at j on fit, but not those from any call it
  // answers on.
  predicate Orphaned(meter: Meter, ms: seq<Message>, budget: int, j: nat)
    requires j < |ms|
  {
    && ms[j].Tool? && Fits(meter, ms, budget, j)
    && forall i :: 0 <= i < j && Answers(ms, i, j) ==> !Fits(meter, ms, budget, i)
  }

  // What fits is what the fallback keeps.
  lemma FitsFrom(meter: Meter, ms: seq<Message>, budget: int) returns (n: nat)
    ensures n <= |ms| && DropOldest(meter, ms, budget) == ms[n..]
    ensures forall k :: 0 <= k < |ms| ==> (Fits(meter, ms, budget, k) <==> n <= k)
  {
    n := FallbackKeepsLongestSuffix(meter, ms, budget);
    forall k | n <= k < |ms| ensures Fits(meter, ms, budget, k) {
      TotalSuffix(meter, ms, n, k);
    }
  }

  lemma OrphanedSplits(meter: Meter, ms: seq<Message>, budget: int, n: nat, j: nat)
    requires j < |ms| && forall k :: 0 <= k < |ms| ==> (Fits(meter, ms, budget, k) <==> n <= k)
    ensures Orphaned(meter, ms, budget, j) <==> Splits(ms, n, j)
  {
    if Splits(ms, n, j) {
      forall i | 0 <= i < j && Answers(ms, i, j) ensures !Fits(meter, ms, budget, i) {
        assert i < n;
      }
    }
  }

  // Without one, the fallback drops single messages: it keeps a result without
  // its call if and only if some result fits and no call it answers does.
  lemma FallbackSplitsExactly(meter: Meter, ms: seq<Message>, budget: int)
    requires TurnsOf(ms) == [] && WellFormed(ms)
    ensures !WellFormed(Trimmed(meter, ms, budget)) <==> exists j :: 0 <= j < |ms| && Orphaned(meter, ms, budget, j)
  {
    if ms != [] {
      var n := FitsFrom(meter, ms, budget);
      SuffixSplits(ms, n);
      forall j | 0 <= j < |ms| ensures Orphaned(meter, ms, budget, j) <==> Splits(ms, n, j) {
        OrphanedSplits(meter, ms, budget, n, j);
      }
    }
  }

  // For instance a call and its result, with room for the result alone.
  lemma FallbackSplitsToolRound(meter: Meter, call: Call, text: string)
    ensures var round := [Assistant(None, [call]), Tool(call.id, text)];
            && WellFormed(round)
            && !WellFormed(Trimmed(meter, round, Cost(meter, Tool(call.id, text))))
  {
    var ask, answer := Assistant(None, [call]), Tool(call.id, text);
    var round := [ask, answer];
    assert ask.calls[0].id == call.id;
    assert Answers(round, 0, 1) && AnsweredFrom(round, 0, 1);
    NoUserNoTurns(round);
    assert round[1..] == [answer] && [answer][1..] == [];
    assert Total(meter, [answer]) == Cost(meter, answer);
    assert Total(meter, round) == Cost(meter, ask) + Total(meter, [answer]);
    assert DropOldest(meter, round, Cost(meter, answer)) == [answer];
    assert [answer][0].Tool?;
  }

  // ── the session ──────────────────────────────────────────────────

  // Whether trimming drops whole turns, or falls back to single messages.
  predicate Drops(meter: Meter, rest: seq<Message>, budget: int) {
    var turns := TurnsOf(rest);
    if turns == [] then rest != [] && Total(meter, rest) > budget
    else Total(meter, Flat(turns)) > budget && FirstFit(meter, turns, budget) > 0
  }

  // The prompt prefix changes without the cache flag being cleared exactly when
  // the only turn is over budget and messages before it are dropped with it.
  lemma StalePrefixExactly(meter: Meter, rest: seq<Message>, budget: int)
    ensures Trimmed(meter, rest, budget) != rest && !Drops(meter, rest, budget) <==>
            |TurnsOf(rest)| == 1 && Lead(rest) > 0 && Total(meter, TurnsOf(rest)[0]) > budget
  {
    var turns := TurnsOf(rest);
    if turns == [] {
    } else {
      TurnsPartition(rest[Lead(rest)..]);
      if Total(meter, Flat(turns)) > budget {
        FirstFitBest(meter, turns, budget);
        if FirstFit(meter, turns, budget) == 0 {
          assert turns[0..] == turns && turns == [turns[0]];
        }
      }
      if |turns| == 1 {
        assert turns == [turns[0]] && Flat(turns) == turns[0] + Flat([]) == turns[0];
      }
    }
  }

  // For instance when an agent has spoken first, and the user's message alone
  // is over budget.
  lemma StalePrefixExample(meter: Meter, reply: string, text: string, budget: int)
    requires budget < Cost(meter, User(text))
    ensures var h := ApplyAll([], [AddAssistant(reply), AddUser(text)]);
            && Trimmed(meter, h, budget) == [User(text)] != h
            && !Drops(meter, h, budget)
  {
    var a, u := Assistant(Some(reply), []), User(text);
    var ops := [AddAssistant(reply), AddUser(text)];
    assert ops[1..] == [AddUser(text)] && [AddUser(text)][1..] == [];
    RepliesAppend([], a);
    assert [] + [a] == [a] && Apply([], AddAssistant(reply)) == [a];
    var h := [a] + [u];
    assert ApplyAll([], ops) == ApplyAll([a], [AddUser(text)]) == ApplyAll(h, []) == h;
    assert h[0] == a && h[1..] == [u] && [u][1..] == [];
    assert Lead([u]) == 0 && Lead(h) == 1;
    assert [u][..1] == [u] && Turns([u]) == [[u]] + Turns([]) == [[u]];
    assert Flat([[u]]) == [u];
    assert Total(meter, [u]) == Cost(meter, u);
    assert [[u]][0..] == [[u]];
  }

  // The cache flag is never cleared for nothing.
  lemma DropsChange(meter: Meter, rest: seq<Message>, budget: int)
    requires Drops(meter, rest, budget)
    ensures |Trimmed(meter, rest, budget)| < |rest|
  {
    var turns := TurnsOf(rest);
    if turns == [] {
      var n := FallbackKeepsLongestSuffix(meter, rest, budget);
      assert rest[0..] == rest;
    } else {
      var k := FirstFit(meter, turns, budget);
      TurnsPartition(rest[Lead(rest)..]);
      assert turns == turns[..k] + turns[k..] && turns[0] in turns[..k];
      assert forall t :: t in turns[..k] ==> t in turns;
      FlatConcat(turns[..k], turns[k..]);
      FlatStartsWithUser(turns[..k]);
    }
  }

  class Session {
    var history: History
    var prefixCacheWarmed: bool
    var graphWarmed: bool
    var prefixCacheDisabled: bool
    const maxInputTokens: Option<int>
    const meter: Meter

    constructor (maxInputTokens: Option<int>, meter: Meter)
      ensures history == [] && this.maxInputTokens == maxInputTokens && this.meter == meter
    {
      history := [];
      prefixCacheWarmed, graphWarmed, prefixCacheDisabled := false, false, false;
      this.maxInputTokens := maxInputTokens;
      this.meter := meter;
    }

    method ResetConversation()
      modifies this
      ensures history == [] && history == Apply(old(history), Reset)
      ensures !prefixCacheWarmed && !graphWarmed && !prefixCacheDisabled
    {
      history := [];
      prefixCacheWarmed := false;
      graphWarmed := false;
      prefixCacheDisabled := false;
    }

    method AppendUser(text: string)
      modifies this`history
      ensures history == old(history) + [User(text)] == Apply(old(history), AddUser(text))
    {
      history := history + [User(text)];
    }

    method AppendAssistant(text: string)
      modifies this
      ensures var now := old(history) + [Assistant(Some(text), [])];
              history == (if ThriceShort(Replies(now)) then [] else now) == Apply(old(history), AddAssistant(text))
      ensures if history == [] then !prefixCacheWarmed && !graphWarmed && !prefixCacheDisabled
              else prefixCacheWarmed == old(prefixCacheWarmed) && graphWarmed == old(graphWarmed) &&
                   prefixCacheDisabled == old(prefixCacheDisabled)
    {
      EchoingExactly(history + [Assistant(Some(text), [])]);
      history := history + [Assistant(Some(text), [])];
      MaybeRecoverFromEcho();
    }

    method MaybeRecoverFromEcho()
      modifies this
      ensures history == (if ThriceShort(Replies(old(history))) then [] else old(history)) == Recovered(old(history))
      ensures if ThriceShort(Replies(old(history))) then !prefixCacheWarmed && !graphWarmed && !prefixCacheDisabled
              else prefixCacheWarmed == old(prefixCacheWarmed) && graphWarmed == old(graphWarmed) &&
                   prefixCacheDisabled == old(prefixCacheDisabled)
    {
      EchoingExactly(history);
      RepliesAtMost(history);
      if |history| < ECHO_WINDOW {
        return;
      }
      var texts := Replies(history);
      if |texts| < ECHO_WINDOW {
        return;
      }
      var base := |texts| - ECHO_WINDOW;
      var first := texts[base];
      if |first| > ECHO_MAX_LEN {
        return;
      }
      for k := base to |texts|
        invariant forall j :: base <= j < k ==> texts[j] == first
      {
        if texts[k] != first {
          return;
        }
      }
      history := [];
      prefixCacheWarmed := false;
      graphWarmed := false;
      prefixCacheDisabled := false;
    }

    method AppendToolCalls(content: Option<string>, calls: seq<Call>)
      modifies this`history
      ensures history == old(history) + [Assistant(content, calls)] == Apply(old(history), AddToolCalls(content, calls))
    {
      history := history + [Assistant(content, calls)];
    }

    method AppendToolResult(callId: string, text: string)
      modifies this`history
      ensures history == old(history) + [Tool(callId, text)] == Apply(old(history), AddToolResult(callId, text))
    {
      history := history + [Tool(callId, text)];
    }

    method Rollback(anchor: int) returns (dropped: nat)
      modifies this`history
      ensures history == Apply(old(history), RollbackTo(anchor))
      ensures history <= old(history) && dropped == |old(history)| - |history|
      ensures |history| == Min(|old(history)|, Max(0, anchor))
    {
      var at := anchor;
      if at < 0 {
        at := 0;
      }
      var current := |history|;
      if at >= current {
        return 0;
      }
      dropped := current - at;
      history := history[..at];
    }

    method Messages(systemPrompt: string) returns (out: seq<Message>)
      modifies this`prefixCacheWarmed
      ensures out == [System(systemPrompt)] +
                     if maxInputTokens.None? then history
                     else Trimmed(meter, history, Budget(maxInputTokens.value))
      ensures maxInputTokens.Some? ==> KeepsWithin(meter, maxInputTokens.value, history, out[1..])
      ensures prefixCacheWarmed ==
              (old(prefixCacheWarmed) &&
               (maxInputTokens.None? || !Drops(meter, history, Budget(maxInputTokens.value))))
    {
      var base := [System(systemPrompt)] + history;
      if maxInputTokens.None? {
        return base;
      }
      assert base[1..] == history;
      TrimKeepsWithin(meter, maxInputTokens.value, history);
      out := TrimToBudget(base, maxInputTokens.value);
    }

    method NextUser(rest: seq<Message>, start: nat) returns (i: nat)
      requires start <= |rest|
      ensures start <= i <= |rest| && i == start + Lead(rest[start..])
    {
      i := start;
      ghost var after := rest[start..];
      while i < |rest| && !rest[i].User?
        invariant start <= i <= start + Lead(after)
      {
        assert rest[i] == after[i - start];
        i := i + 1;
      }
      if i < |rest| { assert rest[i] == after[i - start]; }
    }

    method GroupTurns(rest: seq<Message>) returns (turns: seq<Turn>)
      ensures turns == TurnsOf(rest)
    {
      var i := NextUser(rest, 0);
      assert rest[0..] == rest;
      turns := [];
      while i < |rest|
        invariant i <= |rest| && turns + Turns(rest[i..]) == TurnsOf(rest)
        decreases |rest| - i
      {
        var start := i;
        i := NextUser(rest, start + 1);
        TurnAt(rest, start, i);
        turns := turns + [rest[start..i]];
      }
    }

    method DropMessages(rest: seq<Message>, budget: int) returns (kept: seq<Message>)
      ensures kept == DropOldest(meter, rest, budget)
    {
      kept := rest;
      var tokens: int := Total(meter, rest);
      while kept != [] && tokens > budget
        invariant tokens == Total(meter, kept)
        invariant DropOldest(meter, kept, budget) == DropOldest(meter, rest, budget)
        decreases |kept|
      {
        tokens := tokens - Cost(meter, kept[0]);
        kept := kept[1..];
      }
    }

    // Drop the oldest completed turns, but never the latest turn: it is pinned
    // apart when it is still incomplete, and otherwise one is left.
    method DropTurns(turns: seq<Turn>, pinned: Turn, budget: int) returns (kept: seq<Turn>, dropped: nat)
      requires turns != [] || pinned != []
      requires Total(meter, Flat(turns + Pinned(pinned))) > budget
      ensures dropped == FirstFit(meter, turns + Pinned(pinned), budget)
      ensures dropped <= |turns| && kept == turns[dropped..]
    {
      var total: int := Total(meter, Flat(turns + Pinned(pinned)));
      var minKeep := if pinned == [] then 1 else 0;
      kept := turns;
      dropped := 0;
      while total > budget && |kept| > minKeep
        invariant dropped <= |turns| && kept == turns[dropped..] && |kept| >= minKeep
        invariant total == Total(meter, Flat(kept + Pinned(pinned)))
        invariant dropped + FirstFit(meter, kept + Pinned(pinned), budget) ==
                  FirstFit(meter, turns + Pinned(pinned), budget)
        decreases |kept|
      {
        FirstFitDrops(meter, kept, Pinned(pinned), budget);
        total := total - Total(meter, kept[0]);
        kept := kept[1..];
        dropped := dropped + 1;
      }
    }

    // The last turn is pinned unless it ends in a plain reply.
    method SplitPinned(turns: seq<Turn>) returns (completed: seq<Turn>, pinned: Turn)
      requires turns != [] && turns[|turns| - 1] != []
      ensures turns == completed + Pinned(pinned)
    {
      var latest := turns[|turns| - 1];
      var last := latest[|latest| - 1];
      if last.Assistant? && last.content.Some? && last.calls == [] {
        completed, pinned := turns, [];
      } else {
        completed, pinned := turns[..|turns| - 1], latest;
      }
    }

    method TrimTurns(turns: seq<Turn>, rest: seq<Message>, budget: int) returns (out: seq<Message>)
      requires turns == TurnsOf(rest) && turns != []
      modifies this`prefixCacheWarmed
      ensures out == Trimmed(meter, rest, budget)
      ensures prefixCacheWarmed == (old(prefixCacheWarmed) && !Drops(meter, rest, budget))
    {
      TurnsPartition(rest[Lead(rest)..]);
      assert IsTurn(turns[|turns| - 1]);
      var completed, pinned := SplitPinned(turns);
      if Total(meter, Flat(completed + Pinned(pinned))) <= budget {
        return rest;
      }
      var kept, dropped := DropTurns(completed, pinned, budget);
      if dropped > 0 {
        prefixCacheWarmed := false;
      }
      DropFirst(completed, Pinned(pinned), dropped);
      FlatConcat(kept, Pinned(pinned));
      out := Flat(kept) + pinned;
    }

    method TrimToBudget(messages: seq<Message>, maxTokens: int) returns (out: seq<Message>)
      modifies this`prefixCacheWarmed
      ensures messages == [] ==> out == [] && prefixCacheWarmed == old(prefixCacheWarmed)
      ensures messages != [] ==> out == [messages[0]] + Trimmed(meter, messages[1..], Budget(maxTokens))
      ensures messages != [] ==>
                prefixCacheWarmed == (old(prefixCacheWarmed) && !Drops(meter, messages[1..], Budget(maxTokens)))
      ensures messages != [] ==> KeepsWithin(meter, maxTokens, messages[1..], out[1..])
    {
      var budget := Budget(maxTokens);
      if messages == [] {
        return messages;
      }
      var system, rest := messages[0], messages[1..];
      TrimKeepsWithin(meter, maxTokens, rest);
      if rest == [] {
        return messages;
      }
      var turns := GroupTurns(rest);
      var kept;
      if turns == [] {
        kept := DropMessages(rest, budget);
        if Total(meter, rest) > budget {
          prefixCacheWarmed := false;
        }
      } else {
        kept := TrimTurns(turns, rest, budget);
      }
      out := [system] + kept;
    }
  }

  // The turn set apart, if there is one.
  function Pinned(pinned: Turn): (r: seq<Turn>)
    ensures Flat(r) == pinned
  {
    if pinned == [] then [] else assert Flat([pinned]) == pinned; [pinned]
  }

  // One round of the grouping loop.
  lemma TurnsCut(ms: seq<Message>, n: nat)
    requires ms != [] && n == 1 + Lead(ms[1..])
    ensures n <= |ms| && Turns(ms) == [ms[..n]] + Turns(ms[n..])
  {
  }

  lemma TurnAt(rest: seq<Message>, start: nat, next: nat)
    requires start < |rest| && next == start + 1 + Lead(rest[start + 1..])
    ensures next <= |rest| && Turns(rest[start..]) == [rest[start..next]] + Turns(rest[next..])
  {
    assert rest[start..][1..] == rest[start + 1..];
    TurnsCut(rest[start..], next - start);
    TailSlices(rest, start, next);
  }

  // One round of the dropping loop.
  lemma FirstFitDrops(meter: Meter, kept: seq<Turn>, tail: seq<Turn>, budget: int)
    requires kept != [] && |kept + tail| > 1 && Total(meter, Flat(kept + tail)) > budget
    ensures FirstFit(meter, kept + tail, budget) == 1 + FirstFit(meter, kept[1..] + tail, budget)
    ensures Total(meter, Flat(kept + tail)) == Total(meter, kept[0]) + Total(meter, Flat(kept[1..] + tail))
  {
    assert (kept + tail)[1..] == kept[1..] + tail;
    TotalConcat(meter, kept[0], Flat(kept[1..] + tail));
  }

  lemma {:induction false} RepliesAtMost(h: History)
    ensures |Replies(h)| <= |h|
  {
    if h != [] {
      RepliesAtMost(h[..|h| - 1]);
    }
  }
}
