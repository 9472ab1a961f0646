/** Lines of a byte string, as `std::getline` plus the conditional newline sees them. */
module Lines {
  import opened Arithmetic

  // An offset at which a line may start, or the end of the file.
  predicate Boundary(f: string, b: nat) {
    b <= |f| && (b == 0 || b == |f| || f[b - 1] == '\n')
  }

  // One past the end of the line that starts at `i`, its newline included.
  function LineEnd(f: string, i: nat): (e: nat)
    requires i < |f|
    ensures i < e <= |f| && Boundary(f, e)
    decreases |f| - i
  {
    if f[i] == '\n' || i + 1 == |f| then i + 1 else LineEnd(f, i + 1)
  }

  // A line end is the next boundary.
  lemma {:induction false} LineEndIsNext(f: string, i: nat, j: nat)
    requires i < j <= |f| && Boundary(f, j)
    ensures LineEnd(f, i) <= j
    decreases |f| - i
  {
    if f[i] != '\n' && i + 1 < j {
      LineEndIsNext(f, i + 1, j);
    }
  }

  // The largest line boundary not above `x`.
  function Floor(f: string, x: nat): (b: nat)
    ensures Boundary(f, b) && b <= x
  {
    if x >= |f| then |f| else if Boundary(f, x) then x else Floor(f, x - 1)
  }

  lemma {:induction false} FloorIsLargest(f: string, x: nat, b: nat)
    requires Boundary(f, b) && b <= x
    ensures b <= Floor(f, x)
  {
    if x < |f| && !Boundary(f, x) {
      FloorIsLargest(f, x - 1, b);
    }
  }

  // Inside a line the floor is the line's start.
  lemma FloorInLine(f: string, b: nat, x: nat)
    requires Boundary(f, b) && b < |f| && b <= x < LineEnd(f, b)
    ensures Floor(f, x) == b
  {
    FloorIsLargest(f, x, b);
    if b < Floor(f, x) {
      LineEndIsNext(f, b, Floor(f, x));
      assert false;
    }
  }

  lemma FloorOfBoundary(f: string, b: nat)
    requires Boundary(f, b)
    ensures Floor(f, b) == b
  {
  }

  lemma FloorBeyondEnd(f: string, x: nat)
    requires x >= |f|
    ensures Floor(f, x) == |f|
  {
  }

  // No line of `f` is longer than `m` bytes.
  ghost predicate LinesAtMost(f: string, m: nat) {
    forall i: nat {:trigger LineEnd(f, i)} :: i < |f| && Boundary(f, i) ==> LineEnd(f, i) - i <= m
  }

  /** The lines of `f` between two boundaries, each with its newline. */
  function LinesBetween(f: string, a: nat, b: nat): (ls: seq<string>)
    requires Boundary(f, a) && Boundary(f, b) && a <= b
    decreases b - a
  {
    if a == b then []
    else
      var e := LineEnd(f, a);
      assert e <= b by { LineEndIsNext(f, a, b); }
      [f[a..e]] + LinesBetween(f, e, b)
  }

  lemma {:induction false} LinesBetweenText(f: string, a: nat, b: nat)
    requires Boundary(f, a) && Boundary(f, b) && a <= b
    ensures Concat(LinesBetween(f, a, b)) == f[a..b]
    decreases b - a
  {
    if a < b {
      var e := LineEnd(f, a);
      LineEndIsNext(f, a, b);
      LinesBetweenText(f, e, b);
      assert f[a..b] == f[a..e] + f[e..b];
    }
  }

  lemma {:induction false} LinesBetweenAppend(f: string, a: nat, b: nat)
    requires Boundary(f, a) && Boundary(f, b) && a <= b < |f|
    ensures LinesBetween(f, a, LineEnd(f, b)) == LinesBetween(f, a, b) + [f[b..LineEnd(f, b)]]
    decreases b - a
  {
    var e := LineEnd(f, b);
    if a == b {
      assert LinesBetween(f, e, e) == [];
    } else {
      LineEndIsNext(f, a, b);
      LinesBetweenAppend(f, LineEnd(f, a), b);
    }
  }

  function Concat(ls: seq<string>): (s: string) {
    if ls == [] then "" else ls[0] + Concat(ls[1..])
  }

  lemma {:induction false} ConcatAppend(a: seq<string>, b: seq<string>)
    ensures Concat(a + b) == Concat(a) + Concat(b)
  {
    if a == [] {
      assert a + b == b;
    } else {
      ConcatAppend(a[1..], b);
      assert (a + b)[1..] == a[1..] + b;
    }
  }

  /** The writes that batching `n` lines a write makes of `ls`. */
  function Packets(ls: seq<string>, n: nat): (ps: seq<string>)
    requires n >= 1
  {
    if ls == [] then []
    else if |ls| <= n then [Concat(ls)]
    else [Concat(ls[..n])] + Packets(ls[n..], n)
  }

  lemma {:induction false} PacketsAppend(a: seq<string>, b: seq<string>, n: nat)
    requires n >= 1 && |a| % n == 0 && 0 < |b| <= n
    ensures Packets(a + b, n) == Packets(a, n) + [Concat(b)]
    decreases |a|
  {
    if a == [] {
      assert a + b == b;
    } else {
      assert |a| >= n;
      assert (a + b)[..n] == a[..n] && (a + b)[n..] == a[n..] + b;
      ModStep(|a|, n);
      PacketsAppend(a[n..], b, n);
      if |a| == n {
        assert a[..n] == a && a[n..] == [];
      }
    }
  }

  // The `k`-th group of `n` lines; the last group may be shorter.
  function Group(ls: seq<string>, n: nat, k: nat): (g: seq<string>)
    requires n >= 1 && n * k < |ls|
    ensures 1 <= |g| <= n
  {
    var lo := n * k;
    if lo + n <= |ls| then ls[lo..lo + n] else ls[lo..]
  }

  /** Batching changes how many writes there are, never what is written: the writes are the
      consecutive groups of `n` lines, each whole, and there are as few as that allows. */
  lemma {:induction false} PacketizationIsTransparent(ls: seq<string>, n: nat)
    requires n >= 1
    ensures Concat(Packets(ls, n)) == Concat(ls)
    ensures |Packets(ls, n)| == CeilDiv(|ls|, n)
    ensures forall k: nat :: k < |Packets(ls, n)| ==>
                               n * k < |ls| && Packets(ls, n)[k] == Concat(Group(ls, n, k))
    decreases |ls|
  {
    if |ls| <= n {
      CeilDivUnique(|ls|, n, if ls == [] then 0 else 1);
      if ls != [] {
        assert Group(ls, n, 0) == ls;
        assert Concat([Concat(ls)]) == Concat(ls) + Concat([]);
      }
    } else {
      var rest := ls[n..];
      PacketizationIsTransparent(rest, n);
      ConcatAppend(ls[..n], rest);
      assert ls[..n] + rest == ls;
      var c := CeilDiv(|rest|, n);
      MulStep(n, c);
      CeilDivUnique(|ls|, n, c + 1);
      forall k: nat | k < c + 1
        ensures n * k < |ls| && Packets(ls, n)[k] == Concat(Group(ls, n, k))
      {
        if k > 0 {
          GroupOfRest(ls, n, k);
        }
      }
    }
  }

  lemma GroupOfRest(ls: seq<string>, n: nat, k: nat)
    requires n >= 1 && |ls| > n && k > 0 && n * (k - 1) < |ls[n..]|
    ensures n * k < |ls| && Group(ls, n, k) == Group(ls[n..], n, k - 1)
  {
    MulStep(n, k);
  }
}
