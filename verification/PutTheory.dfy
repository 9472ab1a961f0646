/** What repeated preemptible PUT rounds add up to. */
module PutTheory {
  import opened Arithmetic
  import opened Wire
  import opened Requests
  import opened PutRounds
  import opened DrrTheory

  /** The uploads whose last round hits the declared total exactly: `early` bytes came with the
      header, and a round takes up to `q` of them whether or not they belong to the body. */
  predicate EndsExactly(early: nat, total: nat, q: nat)
    requires q >= 1
  {
    early <= total || (total > 0 && total % q == 0)
  }

  /** An upload after `k` unfinished rounds. The body starts at offset `h` of the stream and
      `early` bytes of it came with the header. */
  ghost predicate PutLive(r: Admitted, s: Sock, h: nat, early: nat, q: nat, k: nat, stored: string) {
    (k > 0 ==> k * q < r.total) && PutAt(r, s, h, early, k * q, stored)
  }

  // The same, after `t` bytes in all.
  ghost predicate PutAt(r: Admitted, s: Sock, h: nat, early: nat, t: nat, stored: string) {
    && r.transferred == t
    && s.read == h + (if early > t then early else t)
    && s.read <= |s.stream|
    && r.extra == (if early > t then s.stream[h + t..h + early] else "")
    && (t > 0 ==> stored == s.stream[h..h + t])
  }

  // Where the next round takes the upload, in numbers alone.
  lemma PutProgress(r: Admitted, s: Sock, h: nat, early: nat, q: nat, k: nat, stored: string)
    requires q >= 1 && PutLive(r, s, h, early, q, k, stored)
    ensures var t' := r.transferred + Moved(r, q);
            && (t' < r.total <==> (k + 1) * q < r.total)
            && (t' < r.total ==> t' == (k + 1) * q)
            && (early <= r.total ==> t' == Min((k + 1) * q, r.total))
            && (r.total < early ==> t' == Min((k + 1) * q, early))
  {
    TimesStep(k, q);
  }

  /** A round that ends the upload ends it exactly in just these cases. */
  lemma PutEndsExactly(r: Admitted, s: Sock, h: nat, early: nat, q: nat, k: nat, stored: string)
    requires q >= 1 && PutLive(r, s, h, early, q, k, stored)
    requires r.transferred + Moved(r, q) >= r.total
    ensures r.transferred + Moved(r, q) == r.total <==> EndsExactly(early, r.total, q)
    ensures k + 1 == TotalRounds(r.total, q)
  {
    PutProgress(r, s, h, early, q, k, stored);
    TotalRoundsIsFirst(r.total, q, k);
    LastRound(r.total, q, k);
  }

  // Among rounds before which the total was not reached, the last one is known by its number
  // and reaches the total exactly when the quantum divides it.
  lemma LastRound(total: nat, q: nat, k: nat)
    requires q >= 1 && (k > 0 ==> k * q < total) && (k + 1) * q >= total
    ensures k + 1 == TotalRounds(total, q)
    ensures (k + 1) * q == total <==> total > 0 && total % q == 0
  {
    assert q * k == k * q && q * (k + 1) == (k + 1) * q;
    if total > 0 {
      CeilDivUnique(total, q, k + 1);
      if total % q == 0 {
        var d := total / q;
        assert total == q * d;
        MulStep(q, d);
        CeilDivUnique(total, q, d);
      } else if (k + 1) * q == total {
        DivModUnique(total, q, k + 1, 0);
        assert false;
      }
    }
  }

  // The file after the round is again a prefix of the body, whatever the file system call order.
  lemma PutExtendsPrefix(r: Admitted, s: Sock, h: nat, early: nat, t: nat, q: nat, stored: string)
    requires PutAt(r, s, h, early, t, stored) && s.read + SocketShare(r, q) <= |s.stream|
    ensures h + t + Moved(r, q) <= |s.stream|
    ensures PutResult(q, r, s, stored).2 == s.stream[h..h + t + Moved(r, q)]
  {
    hide PutResult;
    ReopenedIsPrefix(r, s, h, early, t, stored);
    ExtraIsNext(r, s, h, early, t, stored, ExtraShare(r, q));
    SocketIsNext(r, s, h, early, t, q, stored);
    ResultIsPrefix(r, s, h, q, stored);
  }

  lemma ReopenedIsPrefix(r: Admitted, s: Sock, h: nat, early: nat, t: nat, stored: string)
    requires PutAt(r, s, h, early, t, stored)
    ensures h + t <= |s.stream| && Reopened(r, stored) == s.stream[h..h + t]
  {
  }

  lemma ExtraIsNext(r: Admitted, s: Sock, h: nat, early: nat, t: nat, stored: string, e: nat)
    requires PutAt(r, s, h, early, t, stored) && e <= |r.extra|
    ensures h + t + e <= |s.stream| && r.extra[..e] == s.stream[h + t..h + t + e]
  {
  }

  lemma SocketIsNext(r: Admitted, s: Sock, h: nat, early: nat, t: nat, q: nat, stored: string)
    requires PutAt(r, s, h, early, t, stored) && s.read + SocketShare(r, q) <= |s.stream|
    ensures h + t + Moved(r, q) <= |s.stream|
    ensures s.stream[s.read..s.read + SocketShare(r, q)] == s.stream[h + t + ExtraShare(r, q)..h + t + Moved(r, q)]
  {
  }

  lemma ResultIsPrefix(r: Admitted, s: Sock, h: nat, q: nat, stored: string)
    requires s.read + SocketShare(r, q) <= |s.stream| && h + r.transferred + Moved(r, q) <= |s.stream|
    requires Reopened(r, stored) == s.stream[h..h + r.transferred]
    requires r.extra[..ExtraShare(r, q)] == s.stream[h + r.transferred..h + r.transferred + ExtraShare(r, q)]
    requires s.stream[s.read..s.read + SocketShare(r, q)]
             == s.stream[h + r.transferred + ExtraShare(r, q)..h + r.transferred + Moved(r, q)]
    ensures PutResult(q, r, s, stored).2 == s.stream[h..h + r.transferred + Moved(r, q)]
  {
    var e, m := ExtraShare(r, q), SocketShare(r, q);
    ThreeParts(s.stream, h, r.transferred, e, m, Reopened(r, stored), r.extra[..e], s.stream[s.read..s.read + m]);
  }

  lemma ThreeParts(f: string, h: nat, t: nat, e: nat, m: nat, a: string, b: string, c: string)
    requires h + t + e + m <= |f|
    requires a == f[h..h + t] && b == f[h + t..h + t + e] && c == f[h + t + e..h + t + e + m]
    ensures a + b + c == f[h..h + t + e + m]
  {
  }

  /** An unfinished round leaves the upload live, one quantum further. */
  lemma PutStaysLive(r: Admitted, s: Sock, h: nat, early: nat, t: nat, q: nat, stored: string, r': Admitted, s': Sock,
                     stored': string, next: nat)
    requires PutAt(r, s, h, early, t, stored) && s.read + SocketShare(r, q) <= |s.stream| && next == t + q
    requires r'.total == r.total && r'.extra == r.extra[ExtraShare(r, q)..]
    requires r'.transferred == r.transferred + Moved(r, q) < r.total
    requires s'.stream == s.stream && s'.read == s.read + SocketShare(r, q)
    requires stored' == PutResult(q, r, s, stored).2
    ensures PutAt(r', s', h, early, next, stored')
  {
    hide PutResult;
    PutExtendsPrefix(r, s, h, early, t, q, stored);
    ReceivedNext(r, s, h, early, t, q, stored);
  }

  lemma ReceivedNext(r: Admitted, s: Sock, h: nat, early: nat, t: nat, q: nat, stored: string)
    requires PutAt(r, s, h, early, t, stored) && s.read + SocketShare(r, q) <= |s.stream|
    requires t + Moved(r, q) < r.total
    ensures Moved(r, q) == q && s.read + SocketShare(r, q) == h + if early > t + q then early else t + q
    ensures r.extra[ExtraShare(r, q)..] == if early > t + q then s.stream[h + t + q..h + early] else ""
  {
  }
}
