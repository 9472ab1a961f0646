/** What repeated deficit rounds add up to. */
module DrrTheory {
  import opened Arithmetic
  import opened Lines
  import opened GetRounds

  // The rounds a transfer of `total` bytes takes when each unfinished round is worth `q` bytes.
  function TotalRounds(total: nat, q: nat): (r: nat)
    requires q >= 1
    ensures r >= 1
  {
    var c := CeilDiv(total, q);
    if c == 0 then 1 else c
  }

  // The rounds after which the allowance covers `total` for the first time.
  lemma TotalRoundsIsFirst(total: nat, q: nat, k: nat)
    requires q >= 1
    ensures k + 1 < TotalRounds(total, q) ==> (k + 1) * q < total
    ensures k + 1 >= TotalRounds(total, q) ==> total <= (k + 1) * q
  {
    var c := CeilDiv(total, q);
    assert (k + 1) * q == q * (k + 1);
    if k + 1 < c {
      MulLe(q, k + 1, c - 1);
    } else {
      MulLe(q, c, k + 1);
    }
  }

  lemma FloorIsEnd(f: string, x: nat)
    ensures Floor(f, x) == |f| <==> x >= |f|
  {
  }

  /** Offset and deficit after `k` rounds; a finished transfer stays as it is. */
  function DrrState(f: string, q: nat, k: nat): (od: (nat, nat))
    requires q >= 1
    ensures Boundary(f, od.0)
  {
    if k == 0 then (0, 0)
    else
      var (o, d) := DrrState(f, q, k - 1);
      if k > 1 && o == |f| then (o, d)
      else
        var n := DrrNext(f, o, d + q);
        (n, if n == |f| then 0 else o + d + q - n)
  }

  /** One round takes the closed form for `k` rounds to the one for `k + 1`. */
  lemma DrrStep(f: string, q: nat, k: nat, o: nat, d: nat)
    requires q >= 1 && o == Floor(f, k * q) && o + d == k * q
    ensures DrrNext(f, o, d + q) == Floor(f, (k + 1) * q)
    ensures o + d + q == (k + 1) * q
  {
    MulStep(q, k);
  }

  // The deficit never pays for the next line, so the subtraction cannot wrap.
  lemma DeficitBelowNextLine(f: string, x: nat)
    requires x < |f|
    ensures x - Floor(f, x) < LineEnd(f, Floor(f, x)) - Floor(f, x)
  {
    FloorIsEnd(f, x);
    var e := LineEnd(f, Floor(f, x));
    if e <= x {
      FloorIsLargest(f, x, e);
      assert false;
    }
  }

  /** While unfinished, `k` rounds have sent the whole lines that `k` quanta pay for and the
      deficit is the rest of the allowance; the transfer is finished after exactly
      `TotalRounds` rounds. */
  lemma {:induction false} DrrClosedForm(f: string, q: nat, k: nat)
    requires q >= 1
    ensures k < TotalRounds(|f|, q) ==>
              && DrrState(f, q, k) == (Floor(f, k * q), k * q - Floor(f, k * q))
              && (k > 0 ==> k * q < |f| && DrrState(f, q, k).1 < LineEnd(f, DrrState(f, q, k).0) - DrrState(f, q, k).0)
    ensures k >= TotalRounds(|f|, q) ==> DrrState(f, q, k) == (|f|, 0)
    ensures k > 0 ==> (DrrState(f, q, k).0 == |f| <==> k >= TotalRounds(|f|, q))
  {
    if k > 0 {
      DrrClosedForm(f, q, k - 1);
      TotalRoundsIsFirst(|f|, q, k - 1);
      FloorIsEnd(f, k * q);
      if k - 1 < TotalRounds(|f|, q) {
        var (o, d) := DrrState(f, q, k - 1);
        DrrStep(f, q, k - 1, o, d);
        if k > 1 {
          FloorIsEnd(f, (k - 1) * q);
        }
        if k < TotalRounds(|f|, q) {
          DeficitBelowNextLine(f, k * q);
        }
      }
    } else {
      assert Floor(f, 0) == 0;
    }
  }
}
