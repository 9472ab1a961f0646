/** What repeated shortest-job selection amounts to. */
module SjfTheory {
  import opened Arithmetic
  import opened Requests
  import opened Scheduler

  /** The order in which SJF serves a queue that nothing joins. */
  function SjfOrder(queue: seq<Admitted>): (order: seq<Admitted>)
    decreases |queue|
  {
    if queue == [] then []
    else
      var i := Selected(Sjf, queue);
      [queue[i]] + SjfOrder(Without(queue, i))
  }

  ghost predicate SortedByTotal(s: seq<Admitted>) {
    forall i, j :: 0 <= i < j < |s| ==> s[i].total <= s[j].total
  }

  // The requests of `s` with a given total, in their order.
  function OfTotal(s: seq<Admitted>, total: nat): (r: seq<Admitted>)
    ensures (forall k :: 0 <= k < |s| ==> s[k].total != total) ==> r == []
  {
    if s == [] then []
    else if s[0].total == total then [s[0]] + OfTotal(s[1..], total)
    else OfTotal(s[1..], total)
  }

  // Taking out the first request of its total takes the head off its class and leaves the others.
  lemma {:induction false} OfTotalTakeOut(s: seq<Admitted>, i: nat, total: nat)
    requires i < |s| && forall j :: 0 <= j < i ==> s[j].total != s[i].total
    ensures OfTotal(s, total) == (if s[i].total == total then [s[i]] else []) + OfTotal(Without(s, i), total)
  {
    if i == 0 {
      assert Without(s, 0) == s[1..];
    } else {
      OfTotalTakeOut(s[1..], i - 1, total);
      assert Without(s, i)[1..] == Without(s[1..], i - 1) && Without(s, i)[0] == s[0];
    }
  }

  lemma WithoutKeeps<T>(s: seq<T>, i: nat)
    requires i < |s|
    ensures multiset(s) == multiset{s[i]} + multiset(Without(s, i))
  {
    assert s == s[..i] + [s[i]] + s[i + 1..];
  }

  lemma {:induction false} SjfOrderPermutes(queue: seq<Admitted>)
    ensures multiset(SjfOrder(queue)) == multiset(queue)
    ensures |SjfOrder(queue)| == |queue|
    decreases |queue|
  {
    if queue != [] {
      var i := Selected(Sjf, queue);
      SjfOrderPermutes(Without(queue, i));
      WithoutKeeps(queue, i);
    }
  }

  lemma {:induction false} SjfOrderSorts(queue: seq<Admitted>)
    ensures SortedByTotal(SjfOrder(queue))
    decreases |queue|
  {
    if queue != [] {
      var i := Selected(Sjf, queue);
      var rest := SjfOrder(Without(queue, i));
      SjfOrderSorts(Without(queue, i));
      SjfOrderPermutes(Without(queue, i));
      forall k | 0 <= k < |rest| ensures queue[i].total <= rest[k].total {
        assert rest[k] in multiset(Without(queue, i));
        assert rest[k] in queue;
      }
    }
  }

  lemma {:induction false} SjfOrderIsStable(queue: seq<Admitted>, total: nat)
    ensures OfTotal(SjfOrder(queue), total) == OfTotal(queue, total)
    decreases |queue|
  {
    if queue != [] {
      var i := Selected(Sjf, queue);
      OfTotalTakeOut(queue, i, total);
      SjfOrderIsStable(Without(queue, i), total);
      var order := SjfOrder(queue);
      assert order[1..] == SjfOrder(Without(queue, i));
    }
  }

  /** Sorted order and the order among equals leave no choice: SJF drains a queue in the stable
      sort by total bytes, and in no other order. */
  lemma {:induction false} StableSortIsUnique(a: seq<Admitted>, b: seq<Admitted>)
    requires SortedByTotal(a) && SortedByTotal(b)
    requires forall total: nat :: OfTotal(a, total) == OfTotal(b, total)
    ensures a == b
    decreases |a|
  {
    if a == [] {
      if b != [] {
        HeadIsLeast(b, a);
      }
    } else {
      HeadIsLeast(a, b);
      assert OfTotal(b, a[0].total)[0] == b[0];
      assert OfTotal(a, a[0].total)[0] == a[0];
      forall total: nat ensures OfTotal(a[1..], total) == OfTotal(b[1..], total) {
        assert OfTotal(a, total) == OfTotal(b, total);
        if total == a[0].total {
          assert OfTotal(a, total)[1..] == OfTotal(a[1..], total);
          assert OfTotal(b, total)[1..] == OfTotal(b[1..], total);
        }
      }
      StableSortIsUnique(a[1..], b[1..]);
    }
  }

  lemma HeadIsLeast(a: seq<Admitted>, b: seq<Admitted>)
    requires a != [] && SortedByTotal(a) && SortedByTotal(b)
    requires forall total: nat :: OfTotal(a, total) == OfTotal(b, total)
    ensures b != [] && a[0].total == b[0].total
  {
    assert OfTotal(a, a[0].total)[0] == a[0];
    assert OfTotal(b, a[0].total) != [];
    assert b != [];
    assert OfTotal(b, b[0].total)[0] == b[0];
    assert OfTotal(a, b[0].total) != [];
  }

  /** The sum of completion times when requests run one after the other in this order and each
      takes as long as it has bytes. */
  function Completions(s: seq<Admitted>): nat {
    if s == [] then 0 else s[0].total * |s| + Completions(s[1..])
  }

  // What any order costs at least: each pair delays by no less than its smaller member.
  function PairCost(s: seq<Admitted>): nat {
    if s == [] then 0 else s[0].total + Delays(s[0].total, s[1..]) + PairCost(s[1..])
  }

  function Delays(v: nat, s: seq<Admitted>): nat {
    if s == [] then 0 else (if v < s[0].total then v else s[0].total) + Delays(v, s[1..])
  }

  lemma {:induction false} DelaysBound(v: nat, s: seq<Admitted>)
    ensures Delays(v, s) <= v * |s|
    ensures (forall k :: 0 <= k < |s| ==> v <= s[k].total) ==> Delays(v, s) == v * |s|
  {
    if s != [] {
      DelaysBound(v, s[1..]);
      MulStep(v, |s| - 1);
    }
  }

  lemma {:induction false} CompletionsBound(s: seq<Admitted>)
    ensures PairCost(s) <= Completions(s)
    ensures SortedByTotal(s) ==> PairCost(s) == Completions(s)
  {
    if s != [] {
      CompletionsBound(s[1..]);
      DelaysBound(s[0].total, s[1..]);
      MulStep(s[0].total, |s| - 1);
    }
  }

  lemma {:induction false} DelaysTakeOut(v: nat, s: seq<Admitted>, i: nat)
    requires i < |s|
    ensures Delays(v, s) == (if v < s[i].total then v else s[i].total) + Delays(v, Without(s, i))
  {
    if i == 0 {
      assert Without(s, 0) == s[1..];
    } else {
      DelaysTakeOut(v, s[1..], i - 1);
      assert Without(s, i)[1..] == Without(s[1..], i - 1);
    }
  }

  lemma {:induction false} PairCostTakeOut(s: seq<Admitted>, i: nat)
    requires i < |s|
    ensures PairCost(s) == s[i].total + Delays(s[i].total, Without(s, i)) + PairCost(Without(s, i))
  {
    if i == 0 {
      assert Without(s, 0) == s[1..];
    } else {
      PairCostTakeOut(s[1..], i - 1);
      DelaysTakeOut(s[0].total, s[1..], i - 1);
      assert Without(s, i)[1..] == Without(s[1..], i - 1);
    }
  }

  lemma {:induction false} DelaysOfPermutation(v: nat, a: seq<Admitted>, b: seq<Admitted>)
    requires multiset(a) == multiset(b)
    ensures Delays(v, a) == Delays(v, b)
    decreases |a|
  {
    if a == [] {
      assert |multiset(b)| == |b|;
    } else {
      var i := PositionOf(a, b);
      DelaysTakeOut(v, b, i);
      DelaysOfPermutation(v, a[1..], Without(b, i));
    }
  }

  lemma {:induction false} PairCostOfPermutation(a: seq<Admitted>, b: seq<Admitted>)
    requires multiset(a) == multiset(b)
    ensures PairCost(a) == PairCost(b)
    decreases |a|
  {
    if a == [] {
      assert |multiset(b)| == |b|;
    } else {
      var i := PositionOf(a, b);
      PairCostTakeOut(b, i);
      DelaysOfPermutation(a[0].total, a[1..], Without(b, i));
      PairCostOfPermutation(a[1..], Without(b, i));
    }
  }

  lemma PositionOf(a: seq<Admitted>, b: seq<Admitted>) returns (i: nat)
    requires a != [] && multiset(a) == multiset(b)
    ensures i < |b| && b[i] == a[0] && multiset(a[1..]) == multiset(Without(b, i))
  {
    assert a[0] in multiset(b);
    i :| i < |b| && b[i] == a[0];
    WithoutKeeps(b, i);
    WithoutKeeps(a, 0);
    assert Without(a, 0) == a[1..];
    assert multiset(a[1..]) == multiset(a) - multiset{a[0]};
  }

  /** No other order of the same requests has a smaller sum of completion times. */
  lemma SjfOrderIsOptimal(queue: seq<Admitted>, other: seq<Admitted>)
    requires multiset(other) == multiset(queue)
    ensures Completions(SjfOrder(queue)) <= Completions(other)
  {
    SjfOrderPermutes(queue);
    SjfOrderSorts(queue);
    CompletionsBound(SjfOrder(queue));
    CompletionsBound(other);
    PairCostOfPermutation(SjfOrder(queue), other);
  }
}
