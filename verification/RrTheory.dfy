/** What repeated round-robin rounds add up to. */
module RrTheory {
  import opened Arithmetic
  import opened Lines
  import opened GetRounds
  import DrrTheory

  // What the last round of a transfer leaves unused.
  function RrUnused(f: string, o: nat, q: nat): nat
    requires Boundary(f, o) && q >= 1
  {
    var n := RrNext(f, o, q);
    if n == |f| && n - o < q then q - (n - o) else 0
  }

  // By how much a round that sends an oversized line exceeds the quantum.
  function RrOverrun(f: string, o: nat, q: nat): nat
    requires Boundary(f, o) && q >= 1
  {
    var n := RrNext(f, o, q);
    if n - o > q then n - o - q else 0
  }

  function RrOffset(f: string, q: nat, k: nat): (o: nat)
    requires q >= 1
    ensures Boundary(f, o)
  {
    if k == 0 then 0 else RrNext(f, RrOffset(f, q, k - 1), q)
  }

  function RrForfeited(f: string, q: nat, k: nat): nat
    requires q >= 1
  {
    if k == 0 then 0 else RrForfeited(f, q, k - 1) + RrForfeit(f, RrOffset(f, q, k - 1), q)
  }

  function RrOverruns(f: string, q: nat, k: nat): nat
    requires q >= 1
  {
    if k == 0 then 0 else RrOverruns(f, q, k - 1) + RrOverrun(f, RrOffset(f, q, k - 1), q)
  }

  /** The rounds that sending `f` from `o` takes; an empty transfer still takes one. */
  function RrRoundsFrom(f: string, o: nat, q: nat): (r: nat)
    requires Boundary(f, o) && q >= 1
    ensures r >= 1
    decreases |f| - o
  {
    var n := RrNext(f, o, q);
    if n == |f| then 1 else 1 + RrRoundsFrom(f, n, q)
  }

  function RrRounds(f: string, q: nat): (r: nat)
    requires q >= 1
  {
    RrRoundsFrom(f, 0, q)
  }

  lemma {:induction false} RrRoundsLeft(f: string, q: nat, k: nat)
    requires q >= 1
    ensures k < RrRounds(f, q) ==> RrRoundsFrom(f, RrOffset(f, q, k), q) == RrRounds(f, q) - k
    ensures k >= RrRounds(f, q) ==> RrOffset(f, q, k) == |f|
    ensures k > 0 ==> (RrOffset(f, q, k) == |f| <==> k >= RrRounds(f, q))
  {
    if k > 0 {
      RrRoundsLeft(f, q, k - 1);
    }
  }

  // The round that reaches the end is the last one.
  lemma RrLastRound(f: string, q: nat, k: nat)
    requires q >= 1 && (k > 0 ==> RrOffset(f, q, k) < |f|) && RrOffset(f, q, k + 1) == |f|
    ensures RrRounds(f, q) == k + 1
  {
    RrRoundsLeft(f, q, k);
    RrRoundsLeft(f, q, k + 1);
  }

  // A forfeit is a proper part of the quantum, and the line it made wait is longer.
  lemma RrForfeitRange(f: string, o: nat, q: nat)
    requires Boundary(f, o) && q >= 1 && RrForfeit(f, o, q) > 0
    ensures 1 <= RrForfeit(f, o, q) <= q - 1
    ensures RrNext(f, o, q) < |f|
    ensures LineEnd(f, RrNext(f, o, q)) > o + q
  {
    var n := RrNext(f, o, q);
    if LineEnd(f, n) <= o + q {
      FloorIsLargest(f, o + q, LineEnd(f, n));
      assert false;
    }
  }

  /** The byte ledger: after `k` rounds, of which only the last may have reached the end, bytes
      sent, forfeited and unused balance the quanta granted plus the overruns. */
  lemma {:induction false} RrLedger(f: string, q: nat, k: nat)
    requires q >= 1 && 1 <= k <= RrRounds(f, q)
    ensures RrOffset(f, q, k) + RrForfeited(f, q, k) + RrUnused(f, RrOffset(f, q, k - 1), q)
            == k * q + RrOverruns(f, q, k)
    ensures k == RrRounds(f, q) ==> RrOffset(f, q, k) == |f|
    ensures k < RrRounds(f, q) ==> RrUnused(f, RrOffset(f, q, k - 1), q) == 0
  {
    RrRoundsLeft(f, q, k);
    TimesStep(k - 1, q);
    RrRoundLedger(f, RrOffset(f, q, k - 1), q);
    if k > 1 {
      RrLedger(f, q, k - 1);
    }
  }

  lemma RrRoundLedger(f: string, o: nat, q: nat)
    requires Boundary(f, o) && q >= 1
    ensures RrNext(f, o, q) - o + RrForfeit(f, o, q) + RrUnused(f, o, q) == q + RrOverrun(f, o, q)
    ensures RrNext(f, o, q) < |f| ==> RrUnused(f, o, q) == 0
  {
  }

  lemma {:induction false} RrForfeitedBelowNextLine(f: string, q: nat, k: nat)
    requires q >= 1 && RrOffset(f, q, k) < |f|
    ensures RrForfeited(f, q, k) < LineEnd(f, RrOffset(f, q, k))
  {
    if k > 0 {
      var o := RrOffset(f, q, k - 1);
      assert o < |f|;
      RrForfeitedBelowNextLine(f, q, k - 1);
      if RrForfeit(f, o, q) > 0 {
        RrForfeitRange(f, o, q);
      }
    }
  }

  /** However many rounds, a transfer forfeits less than the size of its file. */
  lemma {:induction false} RrForfeitedBelowSize(f: string, q: nat, k: nat)
    requires q >= 1 && |f| > 0
    ensures RrForfeited(f, q, k) < |f|
  {
    if k > 0 {
      RrForfeitedBelowSize(f, q, k - 1);
      if RrForfeit(f, RrOffset(f, q, k - 1), q) > 0 {
        RrForfeitRange(f, RrOffset(f, q, k - 1), q);
        RrForfeitedBelowNextLine(f, q, k);
      }
    }
  }

  /** Any two consecutive rounds together send more than a quantum. */
  lemma RrTwoRounds(f: string, o: nat, q: nat)
    requires Boundary(f, o) && q >= 1 && RrNext(f, o, q) < |f|
    ensures RrNext(f, RrNext(f, o, q), q) > o + q
  {
    var n := RrNext(f, o, q);
    if RrForfeit(f, o, q) > 0 {
      RrForfeitRange(f, o, q);
    }
  }

  lemma {:induction false} RrPairs(f: string, q: nat, j: nat)
    requires q >= 1 && (j > 0 ==> RrOffset(f, q, 2 * j - 1) < |f|)
    ensures j * (q + 1) <= RrOffset(f, q, 2 * j)
  {
    if j > 0 {
      var i := 2 * j - 2;
      RrPairGrows(f, q, i);
      if j > 1 {
        assert RrOffset(f, q, i - 1) <= RrOffset(f, q, i) < |f|;
      }
      RrPairs(f, q, j - 1);
      TimesStep(j - 1, q + 1);
    }
  }

  lemma RrPairGrows(f: string, q: nat, i: nat)
    requires q >= 1 && RrOffset(f, q, i + 1) < |f|
    ensures RrOffset(f, q, i) <= RrOffset(f, q, i + 1)
    ensures RrOffset(f, q, i + 2) >= RrOffset(f, q, i) + (q + 1)
  {
    RrTwoRounds(f, RrOffset(f, q, i), q);
  }

  /** So a transfer of two rounds or more is large. */
  lemma RrRoundBound(f: string, q: nat)
    requires q >= 1 && RrRounds(f, q) >= 2
    ensures RrRounds(f, q) / 2 * (q + 1) <= |f|
  {
    var j := RrRounds(f, q) / 2;
    RrRoundsLeft(f, q, 2 * j - 1);
    RrPairs(f, q, j);
  }

  /** A cut of `f` into consecutive chunks of whole lines, given by where they end: each is at
      most `q` bytes or a single line. */
  ghost predicate IsCut(f: string, q: nat, ends: seq<nat>) {
    && (forall i {:trigger ChunkAt(f, q, ends, i)} :: 0 <= i < |ends| ==> ChunkAt(f, q, ends, i))
    && ChunkStart(ends, |ends|) == |f|
  }

  ghost predicate ChunkAt(f: string, q: nat, ends: seq<nat>, i: nat)
    requires i < |ends|
  {
    Boundary(f, ends[i]) && IsChunk(f, q, ChunkStart(ends, i), ends[i])
  }

  ghost predicate IsChunk(f: string, q: nat, a: nat, b: nat) {
    a < b <= |f| && (b - a <= q || b == LineEnd(f, a))
  }

  function ChunkStart(ends: seq<nat>, i: nat): nat
    requires i <= |ends|
  {
    if i == 0 then 0 else ends[i - 1]
  }

  // A chunk that starts no later than a greedy round ends no later.
  lemma GreedyReaches(f: string, q: nat, a: nat, b: nat, g: nat)
    requires q >= 1 && Boundary(f, a) && Boundary(f, b) && Boundary(f, g) && a <= g
    requires IsChunk(f, q, a, b)
    ensures b <= RrNext(f, g, q)
  {
    if g < b {
      LineEndIsNext(f, g, b);
      if b - a <= q {
        FloorIsLargest(f, g + q, b);
      } else if a < g {
        LineEndIsNext(f, a, g);
      }
    }
  }

  lemma {:induction false} GreedyStaysAhead(f: string, q: nat, ends: seq<nat>, k: nat)
    requires q >= 1 && IsCut(f, q, ends) && k <= |ends|
    ensures Boundary(f, ChunkStart(ends, k)) && ChunkStart(ends, k) <= RrOffset(f, q, k)
  {
    if k > 0 {
      GreedyStaysAhead(f, q, ends, k - 1);
      var a, b := ChunkStart(ends, k - 1), ends[k - 1];
      assert ChunkAt(f, q, ends, k - 1);
      GreedyReaches(f, q, a, b, RrOffset(f, q, k - 1));
    }
  }

  /** No cut of a non-empty file has fewer chunks than round robin takes rounds. */
  lemma RrIsOptimal(f: string, q: nat, ends: seq<nat>)
    requires q >= 1 && |f| > 0 && IsCut(f, q, ends)
    ensures RrRounds(f, q) <= |ends|
  {
    GreedyStaysAhead(f, q, ends, |ends|);
    RrRoundsLeft(f, q, |ends|);
  }

  // The cut that the rounds themselves make.
  function RrCut(f: string, q: nat, k: nat): (ends: seq<nat>)
    requires q >= 1
    ensures |ends| == k && forall i :: 0 <= i < k ==> ends[i] == RrOffset(f, q, i + 1)
  {
    if k == 0 then [] else RrCut(f, q, k - 1) + [RrOffset(f, q, k)]
  }

  /** The rounds of a non-empty transfer are such a cut, so the bound is attained. */
  lemma RrRoundsAreACut(f: string, q: nat)
    requires q >= 1 && |f| > 0
    ensures IsCut(f, q, RrCut(f, q, RrRounds(f, q))) && |RrCut(f, q, RrRounds(f, q))| == RrRounds(f, q)
  {
    var r := RrRounds(f, q);
    var ends := RrCut(f, q, r);
    forall i | 0 <= i < r
      ensures ChunkAt(f, q, ends, i)
    {
      assert ChunkStart(ends, i) == RrOffset(f, q, i);
      RrRoundsLeft(f, q, i);
    }
    RrRoundsLeft(f, q, r);
  }

  lemma {:induction false} RrWithinAllowance(f: string, q: nat, k: nat)
    requires q >= 1 && LinesAtMost(f, q)
    ensures RrOffset(f, q, k) <= k * q
  {
    if k > 0 {
      RrWithinAllowance(f, q, k - 1);
      var o := RrOffset(f, q, k - 1);
      assert o < |f| ==> LineEnd(f, o) - o <= q;
      assert k * q == (k - 1) * q + q;
    }
  }

  /** When no line exceeds the quantum, deficit rounds are never behind round-robin rounds. */
  lemma DrrDominatesRr(f: string, q: nat, k: nat)
    requires q >= 1 && LinesAtMost(f, q)
    ensures RrOffset(f, q, k) <= DrrTheory.DrrState(f, q, k).0
    ensures DrrTheory.TotalRounds(|f|, q) <= RrRounds(f, q)
  {
    RrWithinAllowance(f, q, k);
    FloorIsLargest(f, k * q, RrOffset(f, q, k));
    DrrTheory.DrrClosedForm(f, q, k);
    var r := RrRounds(f, q);
    RrWithinAllowance(f, q, r);
    RrRoundsLeft(f, q, r);
    CeilDivAtMost(|f|, q, r);
  }

  lemma CeilDivAtMost(m: nat, n: nat, c: nat)
    requires n >= 1 && m <= c * n
    ensures CeilDiv(m, n) <= c
  {
    assert c * n == n * c;
    if c < CeilDiv(m, n) {
      MulLe(n, c, CeilDiv(m, n) - 1);
      assert false;
    }
  }

  /** The hypothesis matters: with one long line round robin takes one round and deficit rounds ten. */
  lemma LongLinesReverseTheOrder(f: string)
    requires |f| == 10 && forall i :: 0 <= i < 10 ==> f[i] != '\n'
    ensures RrRounds(f, 1) == 1 && DrrTheory.TotalRounds(|f|, 1) == 10
  {
    assert LineEnd(f, 0) == 10;
    CeilDivUnique(10, 1, 10);
  }
}
