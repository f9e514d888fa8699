// Reading the two output pipes of a probe process into bounded captures
// (scripts/edgellm_native_run.py).
module BoundedProbe {
  import opened Prelude

  datatype Pipe = Out | Err

  // What one os.read on a ready pipe yields; no bytes is the end of the stream.
  datatype Outcome = Blocks | Fails | Bytes(data: seq<Byte>)

  // A pipe that select reports, and what reading it yields from then on. When
  // the reads run out, reading would block.
  datatype Ready = Ready(pipe: Pipe, outcomes: seq<Outcome>)

  const READ_SIZE := 65536

  // A delivered byte and the pipe it came from.
  datatype Tagged = Tagged(pipe: Pipe, byte: Byte)

  function Tag(p: Pipe, data: seq<Byte>): (r: seq<Tagged>)
    ensures |r| == |data|
  {
    seq(|data|, i requires 0 <= i < |data| => Tagged(p, data[i]))
  }

  // The bytes of one pipe, in delivery order.
  function Part(p: Pipe, delivered: seq<Tagged>): seq<Byte> {
    if delivered == [] then []
    else (if delivered[0].pipe == p then [delivered[0].byte] else []) + Part(p, delivered[1..])
  }

  predicate Delivers(o: Outcome) {
    o.Bytes? && o.data != []
  }

  // Draining one pipe reads every chunk up to the first read that delivers
  // none, or up to the chunk that passes the limit.
  function AfterPipe(p: Pipe, outcomes: seq<Outcome>, delivered: seq<Tagged>, limit: nat): seq<Tagged>
    decreases |outcomes|
  {
    if outcomes == [] || !Delivers(outcomes[0]) then delivered
    else
      var now := delivered + Tag(p, outcomes[0].data);
      if |now| > limit then now else AfterPipe(p, outcomes[1..], now, limit)
  }

  // One drain goes from pipe to pipe, unless the limit is passed.
  function AfterDrain(ready: seq<Ready>, delivered: seq<Tagged>, limit: nat): seq<Tagged>
    decreases |ready|
  {
    if ready == [] then delivered
    else
      var now := AfterPipe(ready[0].pipe, ready[0].outcomes, delivered, limit);
      if |now| > limit then now else AfterDrain(ready[1..], now, limit)
  }

  // Drains follow one another, past the limit too.
  function AfterDrains(rounds: seq<seq<Ready>>, delivered: seq<Tagged>, limit: nat): seq<Tagged>
    decreases |rounds|
  {
    if rounds == [] then delivered
    else AfterDrains(rounds[1..], AfterDrain(rounds[0], delivered, limit), limit)
  }

  // ── parts of an interleaving ─────────────────────────────────────

  lemma {:induction false} PartConcat(p: Pipe, a: seq<Tagged>, b: seq<Tagged>)
    ensures Part(p, a + b) == Part(p, a) + Part(p, b)
  {
    if a == [] {
      assert a + b == b;
    } else {
      assert (a + b)[1..] == a[1..] + b;
      PartConcat(p, a[1..], b);
    }
  }

  lemma {:induction false} PartTag(p: Pipe, q: Pipe, data: seq<Byte>)
    ensures Part(p, Tag(q, data)) == if p == q then data else []
    decreases |data|
  {
    if data != [] {
      assert Tag(q, data)[1..] == Tag(q, data[1..]);
      PartTag(p, q, data[1..]);
    }
  }

  lemma {:induction false} PartsPartition(delivered: seq<Tagged>)
    ensures |Part(Out, delivered)| + |Part(Err, delivered)| == |delivered|
  {
    if delivered != [] {
      PartsPartition(delivered[1..]);
    }
  }

  // ── what the captures hold ───────────────────────────────────────

  function Kept(delivered: seq<Tagged>, limit: nat): seq<Tagged> {
    delivered[..Min(limit, |delivered|)]
  }

  // Whatever the interleaving: the two captures together hold exactly the
  // first bytes delivered, up to the limit; each is a prefix of what its pipe
  // delivered; and both are complete exactly when the limit is not passed.
  lemma CapturesAreBounded(delivered: seq<Tagged>, limit: nat)
    ensures var kept := Kept(delivered, limit);
            && |Part(Out, kept)| + |Part(Err, kept)| == Min(limit, |delivered|)
            && Part(Out, kept) <= Part(Out, delivered)
            && Part(Err, kept) <= Part(Err, delivered)
            && (Part(Out, kept) == Part(Out, delivered) && Part(Err, kept) == Part(Err, delivered) <==>
                |delivered| <= limit)
  {
    var kept := Kept(delivered, limit);
    assert delivered == kept + delivered[|kept|..];
    PartsPartition(kept);
    PartsPartition(delivered);
    PartConcat(Out, kept, delivered[|kept|..]);
    PartConcat(Err, kept, delivered[|kept|..]);
  }

  // ── how far a drain reads past the limit ─────────────────────────

  predicate ReadSized(outcomes: seq<Outcome>) {
    forall i :: 0 <= i < |outcomes| && outcomes[i].Bytes? ==> |outcomes[i].data| <= READ_SIZE
  }

  predicate RoundsSized(rounds: seq<seq<Ready>>) {
    forall i, j :: 0 <= i < |rounds| && 0 <= j < |rounds[i]| ==> ReadSized(rounds[i][j].outcomes)
  }

  lemma {:induction false} PipeOverrun(p: Pipe, outcomes: seq<Outcome>, delivered: seq<Tagged>, limit: nat)
    requires ReadSized(outcomes)
    ensures var now := AfterPipe(p, outcomes, delivered, limit);
            delivered <= now && |now| <= Max(limit, |delivered|) + READ_SIZE
    decreases |outcomes|
  {
    if outcomes != [] && Delivers(outcomes[0]) {
      assert forall i :: 0 <= i < |outcomes[1..]| ==> outcomes[1..][i] == outcomes[i + 1];
      PipeOverrun(p, outcomes[1..], delivered + Tag(p, outcomes[0].data), limit);
    }
  }

  lemma {:induction false} DrainOverrun(ready: seq<Ready>, delivered: seq<Tagged>, limit: nat)
    requires forall i :: 0 <= i < |ready| ==> ReadSized(ready[i].outcomes)
    ensures var now := AfterDrain(ready, delivered, limit);
            delivered <= now && |now| <= Max(limit, |delivered|) + READ_SIZE
    decreases |ready|
  {
    if ready != [] {
      PipeOverrun(ready[0].pipe, ready[0].outcomes, delivered, limit);
      assert forall i :: 0 <= i < |ready[1..]| ==> ready[1..][i] == ready[i + 1];
      DrainOverrun(ready[1..], AfterPipe(ready[0].pipe, ready[0].outcomes, delivered, limit), limit);
    }
  }

  // A run reads at most one chunk a drain past the limit.
  lemma {:induction false} RunOverrun(rounds: seq<seq<Ready>>, delivered: seq<Tagged>, limit: nat)
    requires RoundsSized(rounds)
    ensures var now := AfterDrains(rounds, delivered, limit);
            delivered <= now && |now| <= Max(limit, |delivered|) + |rounds| * READ_SIZE
    decreases |rounds|
  {
    if rounds != [] {
      DrainOverrun(rounds[0], delivered, limit);
      assert forall i :: 0 <= i < |rounds[1..]| ==> rounds[1..][i] == rounds[i + 1];
      RunOverrun(rounds[1..], AfterDrain(rounds[0], delivered, limit), limit);
    }
  }

  // ── where a drain stops ──────────────────────────────────────────

  datatype Chunk = Chunk(pipe: Pipe, data: seq<Byte>)

  // The chunks a pipe has ready before it blocks, fails or ends.
  function PipeChunks(p: Pipe, outcomes: seq<Outcome>): seq<Chunk> {
    if outcomes == [] || !Delivers(outcomes[0]) then []
    else [Chunk(p, outcomes[0].data)] + PipeChunks(p, outcomes[1..])
  }

  function ReadyChunks(ready: seq<Ready>): seq<Chunk> {
    if ready == [] then [] else PipeChunks(ready[0].pipe, ready[0].outcomes) + ReadyChunks(ready[1..])
  }

  function Spread(chunks: seq<Chunk>): seq<Tagged> {
    if chunks == [] then [] else Tag(chunks[0].pipe, chunks[0].data) + Spread(chunks[1..])
  }

  lemma {:induction false} SpreadConcat(a: seq<Chunk>, b: seq<Chunk>)
    ensures Spread(a + b) == Spread(a) + Spread(b)
  {
    if a == [] {
      assert a + b == b;
    } else {
      assert (a + b)[1..] == a[1..] + b;
      SpreadConcat(a[1..], b);
      ConcatAssoc(Tag(a[0].pipe, a[0].data), Spread(a[1..]), Spread(b));
    }
  }

  // The bytes of the first k chunks.
  function Size(chunks: seq<Chunk>, k: nat): nat
    requires k <= |chunks|
  {
    if k == 0 then 0 else Size(chunks, k - 1) + |chunks[k - 1].data|
  }

  lemma {:induction false} SpreadSize(chunks: seq<Chunk>, k: nat)
    requires k <= |chunks|
    ensures |Spread(chunks[..k])| == Size(chunks, k)
  {
    if k > 0 {
      SpreadSize(chunks, k - 1);
      var last := [chunks[k - 1]];
      assert chunks[..k] == chunks[..k - 1] + last;
      SpreadConcat(chunks[..k - 1], last);
      assert last[1..] == [] && Spread(last) == Tag(chunks[k - 1].pipe, chunks[k - 1].data);
    }
  }

  lemma {:induction false} SizeHead(a: seq<Chunk>, b: seq<Chunk>, k: nat)
    requires k <= |a|
    ensures Size(a + b, k) == Size(a, k)
  {
    if k > 0 {
      SizeHead(a, b, k - 1);
    }
  }

  lemma {:induction false} SizeTail(a: seq<Chunk>, b: seq<Chunk>, k: nat)
    requires k <= |b|
    ensures Size(a + b, |a| + k) == Size(a, |a|) + Size(b, k)
  {
    if k > 0 {
      SizeTail(a, b, k - 1);
    } else {
      SizeHead(a, b, |a|);
    }
  }

  // The limit is not passed before the last of the first k chunks.
  predicate StaysWithin(chunks: seq<Chunk>, before: nat, limit: nat, k: nat)
    requires k <= |chunks|
  {
    forall i :: 0 < i < k ==> before + Size(chunks, i) <= limit
  }

  // The first k chunks are all there are, or the last of them is the first one
  // after which the limit is passed.
  predicate StopsAfter(chunks: seq<Chunk>, before: nat, limit: nat, k: nat) {
    && k <= |chunks|
    && StaysWithin(chunks, before, limit, k)
    && (k < |chunks| ==> k > 0 && before + Size(chunks, k) > limit)
  }

  lemma StopsOnce(chunks: seq<Chunk>, before: nat, limit: nat, k: nat, l: nat)
    requires StopsAfter(chunks, before, limit, k) && StopsAfter(chunks, before, limit, l)
    ensures k == l
  {
  }

  lemma SizeInTail(a: seq<Chunk>, b: seq<Chunk>, before: nat, limit: nat, k: nat, i: nat)
    requires StaysWithin(a, before, limit, |a|) && before + Size(a, |a|) <= limit
    requires k <= |b| && StaysWithin(b, before + Size(a, |a|), limit, k) && 0 < i < |a| + k
    ensures before + Size(a + b, i) <= limit
  {
    if i <= |a| {
      SizeHead(a, b, i);
    } else {
      SizeTail(a, b, i - |a|);
    }
  }

  // The first part runs out within the limit, and the second part goes on.
  lemma StopsInTail(a: seq<Chunk>, b: seq<Chunk>, before: nat, limit: nat, k: nat)
    requires StopsAfter(a, before, limit, |a|) && before + Size(a, |a|) <= limit
    requires StopsAfter(b, before + Size(a, |a|), limit, k)
    ensures StopsAfter(a + b, before, limit, |a| + k)
  {
    assert StaysWithin(a + b, before, limit, |a| + k) by {
      forall i | 0 < i < |a| + k ensures before + Size(a + b, i) <= limit {
        SizeInTail(a, b, before, limit, k, i);
      }
    }
    SizeTail(a, b, k);
  }

  // The first part already passes the limit.
  lemma StopsInHead(a: seq<Chunk>, b: seq<Chunk>, before: nat, limit: nat, k: nat)
    requires StopsAfter(a, before, limit, k) && k > 0 && before + Size(a, k) > limit
    ensures StopsAfter(a + b, before, limit, k)
  {
    forall i | 0 < i <= k ensures Size(a + b, i) == Size(a, i) {
      SizeHead(a, b, i);
    }
  }

  lemma SpreadTail(delivered: seq<Tagged>, a: seq<Chunk>, b: seq<Chunk>, k: nat)
    requires k <= |b|
    ensures delivered + Spread((a + b)[..|a| + k]) == (delivered + Spread(a)) + Spread(b[..k])
  {
    assert (a + b)[..|a| + k] == a + b[..k];
    SpreadConcat(a, b[..k]);
    ConcatAssoc(delivered, Spread(a), Spread(b[..k]));
  }

  // Draining one pipe reads all it has ready, or stops right after the chunk
  // with which the limit is passed.
  lemma {:induction false} PipeStops(p: Pipe, outcomes: seq<Outcome>, delivered: seq<Tagged>, limit: nat) returns (k: nat)
    ensures StopsAfter(PipeChunks(p, outcomes), |delivered|, limit, k)
    ensures AfterPipe(p, outcomes, delivered, limit) == delivered + Spread(PipeChunks(p, outcomes)[..k])
    decreases |outcomes|
  {
    var chunks := PipeChunks(p, outcomes);
    if chunks == [] {
      return 0;
    }
    var first := [Chunk(p, outcomes[0].data)];
    var rest := PipeChunks(p, outcomes[1..]);
    var now := delivered + Tag(p, outcomes[0].data);
    assert first[1..] == [] && Spread(first) == Tag(p, outcomes[0].data);
    assert Size(first, 0) == 0 && Size(first, 1) == |outcomes[0].data|;
    if |now| > limit {
      StopsInHead(first, rest, |delivered|, limit, 1);
      assert chunks[..1] == first;
      return 1;
    }
    var l := PipeStops(p, outcomes[1..], now, limit);
    StopsInTail(first, rest, |delivered|, limit, l);
    SpreadTail(delivered, first, rest, l);
    k := 1 + l;
  }

  // So does a drain of all the ready pipes, in their order, ...
  lemma {:induction false} DrainStops(ready: seq<Ready>, delivered: seq<Tagged>, limit: nat) returns (k: nat)
    requires |delivered| <= limit
    ensures StopsAfter(ReadyChunks(ready), |delivered|, limit, k)
    ensures AfterDrain(ready, delivered, limit) == delivered + Spread(ReadyChunks(ready)[..k])
    decreases |ready|
  {
    if ready == [] {
      return 0;
    }
    var chunks := PipeChunks(ready[0].pipe, ready[0].outcomes);
    var rest := ReadyChunks(ready[1..]);
    k := PipeStops(ready[0].pipe, ready[0].outcomes, delivered, limit);
    var now := delivered + Spread(chunks[..k]);
    SpreadSize(chunks, k);
    assert (chunks + rest)[..k] == chunks[..k];
    if |now| > limit {
      StopsInHead(chunks, rest, |delivered|, limit, k);
    } else {
      assert k == |chunks| && chunks[..k] == chunks;
      var l := DrainStops(ready[1..], now, limit);
      StopsInTail(chunks, rest, |delivered|, limit, l);
      SpreadTail(delivered, chunks, rest, l);
      k := k + l;
    }
  }

  // ... but past the limit only the first chunk of the first pipe is read.
  lemma DrainPastLimit(ready: seq<Ready>, delivered: seq<Tagged>, limit: nat)
    requires |delivered| > limit
    ensures AfterDrain(ready, delivered, limit) ==
            if ready == [] || PipeChunks(ready[0].pipe, ready[0].outcomes) == [] then delivered
            else delivered + Tag(ready[0].pipe, ready[0].outcomes[0].data)
  {
  }

  // ── the probe ────────────────────────────────────────────────────

  class Probe {
    const maxBytes: int
    var stdout: seq<Byte>
    var stderr: seq<Byte>
    var stdoutTotal: nat
    var stderrTotal: nat
    var outputLimited: Latch
    // Every byte read so far, in the order the reads returned it.
    ghost var delivered: seq<Tagged>

    // A negative bound captures nothing.
    ghost function Limit(): nat {
      if maxBytes < 0 then 0 else maxBytes
    }

    // The captures and counters say exactly what was delivered.
    ghost predicate Valid()
      reads this
    {
      && stdout == Part(Out, Kept(delivered, Limit()))
      && stderr == Part(Err, Kept(delivered, Limit()))
      && stdoutTotal == |Part(Out, delivered)|
      && stderrTotal == |Part(Err, delivered)|
      && stdoutTotal + stderrTotal == |delivered|
      && (outputLimited.On? <==> |delivered| > Limit())
    }

    constructor (maxBytes: int)
      ensures Valid() && delivered == [] && this.maxBytes == maxBytes
    {
      this.maxBytes := maxBytes;
      stdout, stderr, stdoutTotal, stderrTotal, outputLimited := [], [], 0, 0, Off;
      delivered := [];
    }

    // One chunk: count it, keep what there is room for.
    method Take(pipe: Pipe, chunk: seq<Byte>)
      requires Valid() && chunk != []
      modifies this
      ensures Valid() && delivered == old(delivered) + Tag(pipe, chunk)
    {
      CapturesAreBounded(delivered, Limit());
      ghost var fits := chunk[..Min(Max(0, Limit() - |delivered|), |chunk|)];
      ChunkAdds(Out, delivered, pipe, chunk, Limit());
      ChunkAdds(Err, delivered, pipe, chunk, Limit());
      Count(pipe, |chunk|);
      var room := maxBytes - |stdout| - |stderr|;
      if |chunk| > room {
        assert chunk[..Max(0, room)] == fits;
        Extend(pipe, chunk[..Max(0, room)]);
        outputLimited := On;
      } else {
        assert chunk == fits;
        Extend(pipe, chunk);
        // The check that follows a whole chunk never fires.
        assert |stdout| + |stderr| <= maxBytes;
      }
      delivered := delivered + Tag(pipe, chunk);
    }

    method Count(pipe: Pipe, bytes: nat)
      modifies this`stdoutTotal, this`stderrTotal
      ensures stdoutTotal == old(stdoutTotal) + (if pipe == Out then bytes else 0)
      ensures stderrTotal == old(stderrTotal) + (if pipe == Err then bytes else 0)
    {
      if pipe == Out {
        stdoutTotal := stdoutTotal + bytes;
      } else {
        stderrTotal := stderrTotal + bytes;
      }
    }

    method Extend(pipe: Pipe, data: seq<Byte>)
      modifies this`stdout, this`stderr
      ensures stdout == old(stdout) + (if pipe == Out then data else [])
      ensures stderr == old(stderr) + (if pipe == Err then data else [])
    {
      if pipe == Out {
        stdout := stdout + data;
      } else {
        stderr := stderr + data;
      }
    }

    method DrainPipe(pipe: Pipe, outcomes: seq<Outcome>)
      requires Valid()
      modifies this
      ensures Valid() && delivered == AfterPipe(pipe, outcomes, old(delivered), Limit())
    {
      var i := 0;
      while i < |outcomes|
        invariant 0 <= i <= |outcomes| && Valid()
        invariant AfterPipe(pipe, outcomes[i..], delivered, Limit()) ==
                  AfterPipe(pipe, outcomes, old(delivered), Limit())
      {
        if !outcomes[i].Bytes? || outcomes[i].data == [] {
          return;
        }
        Take(pipe, outcomes[i].data);
        assert outcomes[i..][1..] == outcomes[i + 1..];
        if outputLimited.On? {
          return;
        }
        i := i + 1;
      }
    }

    method Drain(ready: seq<Ready>)
      requires Valid()
      modifies this
      ensures Valid() && delivered == AfterDrain(ready, old(delivered), Limit())
    {
      var i := 0;
      while i < |ready|
        invariant 0 <= i <= |ready| && Valid()
        invariant AfterDrain(ready[i..], delivered, Limit()) == AfterDrain(ready, old(delivered), Limit())
      {
        DrainPipe(ready[i].pipe, ready[i].outcomes);
        assert ready[i..][1..] == ready[i + 1..];
        if outputLimited.On? {
          return;
        }
        i := i + 1;
      }
    }

    // The drains that follow one another while the process is watched and
    // reaped; they go on after the limit is passed.
    method DrainAll(rounds: seq<seq<Ready>>)
      requires Valid()
      modifies this
      ensures Valid() && delivered == AfterDrains(rounds, old(delivered), Limit())
    {
      var i := 0;
      while i < |rounds|
        invariant 0 <= i <= |rounds| && Valid()
        invariant AfterDrains(rounds[i..], delivered, Limit()) == AfterDrains(rounds, old(delivered), Limit())
      {
        Drain(rounds[i]);
        assert rounds[i..][1..] == rounds[i + 1..];
        i := i + 1;
      }
    }
  }

  // A chunk adds to its own pipe only, and to the captures only as far as the
  // limit allows.
  lemma ChunkAdds(p: Pipe, delivered: seq<Tagged>, pipe: Pipe, chunk: seq<Byte>, limit: nat)
    ensures var now := delivered + Tag(pipe, chunk);
            var fits := chunk[..Min(Max(0, limit - |delivered|), |chunk|)];
            && Part(p, now) == Part(p, delivered) + (if p == pipe then chunk else [])
            && Part(p, Kept(now, limit)) == Part(p, Kept(delivered, limit)) + (if p == pipe then fits else [])
            && |Kept(now, limit)| == |Kept(delivered, limit)| + |fits|
  {
    var now := delivered + Tag(pipe, chunk);
    var fits := chunk[..Min(Max(0, limit - |delivered|), |chunk|)];
    assert Kept(now, limit) == Kept(delivered, limit) + Tag(pipe, fits);
    PartConcat(p, delivered, Tag(pipe, chunk));
    PartTag(p, pipe, chunk);
    PartConcat(p, Kept(delivered, limit), Tag(pipe, fits));
    PartTag(p, pipe, fits);
  }
}
