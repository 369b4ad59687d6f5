/** The arithmetic of the token pool's round robin: a ticket from a 64-bit counter, the slot
    it starts at, and the search for a token that is not excluded. */
module RoundRobin {
  import opened Prelude

  const TWO_64 := 0x1_0000_0000_0000_0000

  /** int((start + uint64(i)) % uint64(n)), with the sum taken modulo 2^64. */
  function Slot(start: nat, i: nat, n: nat): (k: nat)
    requires n > 0
    ensures k < n
  {
    ((start + i) % TWO_64) % n
  }

  /** The loop of Select from index i on: the first slot that is not excluded. */
  function Search(start: nat, i: nat, excluded: seq<bool>): (r: Option<nat>)
    requires i <= |excluded|
    ensures r.Some? ==> r.value < |excluded| && !excluded[r.value]
    decreases |excluded| - i
  {
    if i == |excluded| then None
    else if excluded[Slot(start, i, |excluded|)] then Search(start, i + 1, excluded)
    else Some(Slot(start, i, |excluded|))
  }

  /** The search fails exactly when every slot it visits is excluded. */
  lemma {:induction false} SearchFails(start: nat, i: nat, excluded: seq<bool>)
    requires i <= |excluded|
    ensures Search(start, i, excluded).None? <==>
      forall j :: i <= j < |excluded| ==> excluded[Slot(start, j, |excluded|)]
    decreases |excluded| - i
  {
    if i < |excluded| {
      SearchFails(start, i + 1, excluded);
    }
  }

  /** Offset j from the ticket is the first, from i on, whose slot is not excluded. */
  ghost predicate FirstFree(start: nat, i: nat, j: nat, excluded: seq<bool>) {
    && i <= j < |excluded| && !excluded[Slot(start, j, |excluded|)]
    && forall k :: i <= k < j ==> excluded[Slot(start, k, |excluded|)]
  }

  /** The search finds the first slot from the ticket on that is not excluded. */
  lemma {:induction false} SearchFindsFirst(start: nat, i: nat, j: nat, excluded: seq<bool>)
    requires FirstFree(start, i, j, excluded)
    ensures Search(start, i, excluded) == Some(Slot(start, j, |excluded|))
    decreases |excluded| - i
  {
    if i < j {
      assert FirstFree(start, i + 1, j, excluded);
      SearchFindsFirst(start, i + 1, j, excluded);
    }
  }

  // ------------------------------------------------------------ modular arithmetic

  lemma MulAtLeast(d: int, n: nat)
    requires d >= 1
    ensures d * n >= n
  {
  }

  /** Division with remainder is unique. */
  lemma RemainderUnique(x: int, q: int, n: nat, k: nat)
    requires n > 0 && k < n && x == q * n + k
    ensures x % n == k
  {
    var p := x / n;
    assert x == p * n + x % n;
    assert (q - p) * n == x % n - k;
    if q > p {
      MulAtLeast(q - p, n);
    } else if q < p {
      MulAtLeast(p - q, n);
    }
  }

  lemma AddRemainder(a: int, i: int, n: nat)
    requires n > 0 && 0 <= a % n + i < 2 * n
    ensures (a + i) % n == if a % n + i < n then a % n + i else a % n + i - n
  {
    var q, r := a / n, a % n;
    assert a == q * n + r;
    if r + i < n {
      RemainderUnique(a + i, q, n, r + i);
    } else {
      assert (q + 1) * n == q * n + n;
      RemainderUnique(a + i, q + 1, n, r + i - n);
    }
  }

  /** Some offset below n reaches every remainder. */
  lemma OffsetReaches(a: nat, n: nat, k: nat) returns (i: nat)
    requires k < n
    ensures i < n && (a + i) % n == k
  {
    var r := a % n;
    i := if k >= r then k - r else k - r + n;
    AddRemainder(a, i, n);
  }

  /** Subtracting 2^64 does not change the remainder when n divides 2^64. */
  lemma WrapKeepsRemainder(x: int, n: nat)
    requires n > 0 && TWO_64 % n == 0
    ensures (x - TWO_64) % n == x % n
  {
    var m, q := TWO_64 / n, x / n;
    assert TWO_64 == m * n;
    assert (q - m) * n == q * n - m * n;
    RemainderUnique(x - TWO_64, q - m, n, x % n);
  }

  /** No wrap before the search ends, or a wrap that the pool size divides. */
  predicate Aligned(start: nat, n: nat)
    requires n > 0
  {
    start + n <= TWO_64 || TWO_64 % n == 0
  }

  lemma AlignedSlot(start: nat, i: nat, n: nat)
    requires start < TWO_64 && i < n <= TWO_64 && Aligned(start, n)
    ensures Slot(start, i, n) == (start + i) % n
  {
    if start + i >= TWO_64 {
      assert (start + i) % TWO_64 == start + i - TWO_64;
      WrapKeepsRemainder(start + i, n);
    }
  }

  // ------------------------------------------------------- the search is complete

  ghost predicate Visits(start: nat, n: nat, k: nat)
    requires n > 0
  {
    exists i: nat :: i < n && Slot(start, i, n) == k
  }

  lemma AlignedVisitsAll(start: nat, n: nat, k: nat)
    requires start < TWO_64 && k < n <= TWO_64 && Aligned(start, n)
    ensures Visits(start, n, k)
  {
    var i := OffsetReaches(start, n, k);
    AlignedSlot(start, i, n);
  }

  /** A slot that a misaligned search never visits: before the wrap it walks up to the
      remainder of 2^64 - 1, after it it starts again at slot 0. */
  function MissedSlot(start: nat, n: nat): (k: nat)
    requires n > 0 && start < TWO_64 < start + n
    ensures k < n
  {
    var rest, r := n - (TWO_64 - start), TWO_64 % n;
    if r + rest - 1 < n && r > 0 then r + rest - 1 else n - 1
  }

  lemma MisalignedMisses(start: nat, n: nat, i: nat)
    requires start < TWO_64 && i < n <= TWO_64 && !Aligned(start, n)
    ensures Slot(start, i, n) != MissedSlot(start, n)
  {
    var left := TWO_64 - start;
    var r := TWO_64 % n;
    if i < left {
      // start + i == 2^64 - j with 1 <= j <= left < n
      var j := left - i;
      assert (start + i) % TWO_64 == start + i == TWO_64 - j;
      BackFromWrap(j, n);
    } else {
      assert (start + i) % TWO_64 == i - left;
      RemainderUnique(i - left, 0, n, i - left);
    }
  }

  lemma BackFromWrap(j: nat, n: nat)
    requires 1 <= j < n <= TWO_64
    ensures (TWO_64 - j) % n == if j <= TWO_64 % n then TWO_64 % n - j else TWO_64 % n - j + n
  {
    var q, r := TWO_64 / n, TWO_64 % n;
    assert TWO_64 == q * n + r;
    if j <= r {
      RemainderUnique(TWO_64 - j, q, n, r - j);
    } else {
      assert (q - 1) * n == q * n - n;
      RemainderUnique(TWO_64 - j, q - 1, n, r - j + n);
    }
  }

  /** Select answers "no available tokens" only when every token is excluded, for every
      exclusion set, exactly when the search does not cross 2^64 or the pool size divides it. */
  lemma SearchCompleteIff(start: nat, n: nat)
    requires start < TWO_64 && 0 < n <= TWO_64
    ensures Aligned(start, n) <==>
      forall excluded: seq<bool> :: |excluded| == n && Search(start, 0, excluded).None? ==>
        forall k :: 0 <= k < n ==> excluded[k]
  {
    if Aligned(start, n) {
      forall excluded: seq<bool>, k | |excluded| == n && Search(start, 0, excluded).None? && 0 <= k < n
        ensures excluded[k]
      {
        SearchFails(start, 0, excluded);
        AlignedVisitsAll(start, n, k);
        var i: nat :| i < n && Slot(start, i, n) == k;
      }
    } else {
      var missed := MissedSlot(start, n);
      var excluded := seq(n, k => k != missed);
      SearchFails(start, 0, excluded);
      forall j | 0 <= j < n
        ensures excluded[Slot(start, j, n)]
      {
        MisalignedMisses(start, n, j);
      }
      assert !excluded[missed];
    }
  }

  // ------------------------------------------------------------------ fairness

  /** Callers of Select on an unchanged pool: each takes a ticket by one atomic addition and
      returns later, in any order.  `next` counts the additions; the counter is next mod 2^64. */
  datatype Callers = Callers(next: nat, inFlight: set<nat>, returned: seq<nat>)

  datatype Move = TakeTicket | Return(ticket: nat)

  function Moved(s: Callers, n: nat, m: Move): Callers
    requires n > 0
  {
    match m
    case TakeTicket => s.(next := s.next + 1, inFlight := s.inFlight + {s.next})
    case Return(t) =>
      if t !in s.inFlight then s
      else s.(inFlight := s.inFlight - {t}, returned := s.returned + [Slot(t % TWO_64, 0, n)])
  }

  function Moves(s: Callers, n: nat, ms: seq<Move>): Callers
    requires n > 0
    decreases |ms|
  {
    if ms == [] then s else Moves(Moved(s, n, ms[0]), n, ms[1..])
  }

  /** How often slot k was returned. */
  function Count(returned: seq<nat>, k: nat): nat {
    if returned == [] then 0
    else Count(returned[..|returned| - 1], k) + if returned[|returned| - 1] == k then 1 else 0
  }

  /** How many of the tickets first, ..., end - 1 start at slot k. */
  function Tickets(first: nat, end: nat, n: nat, k: nat): nat
    requires n > 0 && first <= end
    decreases end
  {
    if first == end then 0 else Tickets(first, end - 1, n, k) + if (end - 1) % n == k then 1 else 0
  }

  function Waiting(inFlight: set<nat>, n: nat, k: nat): set<nat>
    requires n > 0
  {
    set t | t in inFlight && t % n == k
  }

  /** Every ticket taken has been returned once or is in flight. */
  ghost predicate TicketsBalance(s: Callers, start: nat, n: nat)
    requires n > 0
  {
    && start <= s.next
    && (forall t :: t in s.inFlight ==> start <= t < s.next)
    && |s.returned| + |s.inFlight| == s.next - start
    && forall k :: 0 <= k < n ==> Count(s.returned, k) + |Waiting(s.inFlight, n, k)| == Tickets(start, s.next, n, k)
  }

  /** The counter does not wrap, or wraps where the pool size divides 2^64. */
  predicate NoSkew(next: nat, n: nat)
    requires n > 0
  {
    next <= TWO_64 || TWO_64 % n == 0
  }

  lemma {:induction false} TicketSlot(t: nat, n: nat)
    requires n > 0 && NoSkew(t + 1, n)
    ensures Slot(t % TWO_64, 0, n) == t % n
  {
    assert (t % TWO_64 + 0) % TWO_64 == t % TWO_64;
    if t >= TWO_64 {
      WrapKeepsRemainder(t, n);
      assert (t - TWO_64) % TWO_64 == t % TWO_64;
      TicketSlot(t - TWO_64, n);
    }
  }

  lemma TakeKeepsBalance(s: Callers, start: nat, n: nat)
    requires n > 0 && TicketsBalance(s, start, n)
    ensures TicketsBalance(Moved(s, n, TakeTicket), start, n)
  {
    var s' := Moved(s, n, TakeTicket);
    forall k | 0 <= k < n
      ensures Count(s'.returned, k) + |Waiting(s'.inFlight, n, k)| == Tickets(start, s'.next, n, k)
    {
      var w := Waiting(s.inFlight, n, k);
      assert Waiting(s'.inFlight, n, k) == if s.next % n == k then w + {s.next} else w;
    }
  }

  lemma ReturnKeepsBalance(s: Callers, start: nat, n: nat, t: nat)
    requires n > 0 && TicketsBalance(s, start, n) && NoSkew(s.next, n)
    ensures TicketsBalance(Moved(s, n, Return(t)), start, n)
  {
    if t in s.inFlight {
      var s' := Moved(s, n, Return(t));
      TicketSlot(t, n);
      assert s'.returned[..|s'.returned| - 1] == s.returned;
      forall k | 0 <= k < n
        ensures Count(s'.returned, k) + |Waiting(s'.inFlight, n, k)| == Tickets(start, s'.next, n, k)
      {
        var w := Waiting(s.inFlight, n, k);
        assert Waiting(s'.inFlight, n, k) == w - {t};
        assert Count(s.returned, k) + |w| == Tickets(start, s.next, n, k);
      }
    }
  }

  lemma {:induction false} MovesKeepBalance(s: Callers, start: nat, n: nat, ms: seq<Move>)
    requires n > 0 && TicketsBalance(s, start, n) && NoSkew(Moves(s, n, ms).next, n)
    ensures TicketsBalance(Moves(s, n, ms), start, n)
    decreases |ms|
  {
    if ms != [] {
      var s' := Moved(s, n, ms[0]);
      NextGrows(s', n, ms[1..]);
      if ms[0].TakeTicket? {
        TakeKeepsBalance(s, start, n);
      } else {
        ReturnKeepsBalance(s, start, n, ms[0].ticket);
      }
      MovesKeepBalance(s', start, n, ms[1..]);
    }
  }

  lemma {:induction false} NextGrows(s: Callers, n: nat, ms: seq<Move>)
    requires n > 0
    ensures s.next <= Moves(s, n, ms).next
    decreases |ms|
  {
    if ms != [] {
      NextGrows(Moved(s, n, ms[0]), n, ms[1..]);
    }
  }

  /** The tickets below t that start at slot k. */
  lemma {:induction false} TicketsFromZero(t: nat, n: nat, k: nat)
    requires k < n
    ensures Tickets(0, t, n, k) == t / n + if k < t % n then 1 else 0
  {
    if t == 0 {
      RemainderUnique(0, 0, n, 0);
      assert 0 / n == 0;
    } else {
      TicketsFromZero(t - 1, n, k);
      var q, r := (t - 1) / n, (t - 1) % n;
      assert t - 1 == q * n + r;
      if r + 1 < n {
        RemainderUnique(t, q, n, r + 1);
        QuotientUnique(t, q, n);
      } else {
        assert (q + 1) * n == q * n + n;
        RemainderUnique(t, q + 1, n, 0);
        QuotientUnique(t, q + 1, n);
      }
    }
  }

  lemma QuotientUnique(x: int, q: int, n: nat)
    requires n > 0 && q * n <= x < q * n + n
    ensures x / n == q
  {
    RemainderUnique(x, q, n, x - q * n);
    var p := x / n;
    assert x == p * n + x % n;
    assert (p - q) * n == 0;
    if p > q {
      MulAtLeast(p - q, n);
    } else if p < q {
      MulAtLeast(q - p, n);
    }
  }

  lemma {:induction false} TicketsSplit(a: nat, b: nat, n: nat, k: nat)
    requires n > 0 && a <= b
    ensures Tickets(0, b, n, k) == Tickets(0, a, n, k) + Tickets(a, b, n, k)
    decreases b
  {
    if a < b {
      TicketsSplit(a, b - 1, n, k);
    }
  }

  lemma Distributes(q: int, p: int, n: nat)
    ensures (q + p) * n == q * n + p * n && (q + p + 1) * n == q * n + p * n + n
  {
  }

  lemma PartsDetermine(x: int, q: int, r: nat, n: nat)
    requires r < n && x == q * n + r
    ensures x / n == q && x % n == r
  {
    RemainderUnique(x, q, n, r);
    QuotientUnique(x, q, n);
  }

  lemma SumDivides(a: nat, m: nat, n: nat)
    requires n > 0
    ensures (a + m) / n == a / n + m / n + if a % n + m % n < n then 0 else 1
    ensures (a + m) % n == a % n + m % n - if a % n + m % n < n then 0 else n
  {
    var q, r, p, w := a / n, a % n, m / n, m % n;
    Distributes(q, p, n);
    if r + w < n {
      PartsDetermine(a + m, q + p, r + w, n);
    } else {
      PartsDetermine(a + m, q + p + 1, r + w - n, n);
    }
  }

  lemma CeilingDivides(m: nat, n: nat)
    requires n > 0
    ensures (m + n - 1) / n == m / n + if m % n == 0 then 0 else 1
  {
    var p, w := m / n, m % n;
    assert m == p * n + w && (p + 1) * n == p * n + n;
    QuotientUnique(m + n - 1, if w == 0 then p else p + 1, n);
  }

  /** Of any m consecutive tickets each slot gets m / n, or one more when n does not divide m. */
  lemma TicketsAreFair(start: nat, m: nat, n: nat, k: nat)
    requires k < n
    ensures m / n <= Tickets(start, start + m, n, k) <= (m + n - 1) / n
  {
    TicketsSplit(start, start + m, n, k);
    TicketsFromZero(start, n, k);
    TicketsFromZero(start + m, n, k);
    SumDivides(start, m, n);
    CeilingDivides(m, n);
  }

  /** Fairness: after any interleaving of callers in which everyone who took a ticket has
      returned, each of the n slots was returned floor(m/n) or ceil(m/n) times, m being the
      number of calls. */
  lemma RoundRobinIsFair(start: nat, n: nat, ms: seq<Move>, k: nat)
    requires k < n
    requires var s := Moves(Callers(start, {}, []), n, ms); s.inFlight == {} && NoSkew(s.next, n)
    ensures var s := Moves(Callers(start, {}, []), n, ms);
      |s.returned| / n <= Count(s.returned, k) <= (|s.returned| + n - 1) / n
  {
    var s0 := Callers(start, {}, []);
    var s := Moves(s0, n, ms);
    assert TicketsBalance(s0, start, n) by {
      assert forall j :: 0 <= j < n ==> Waiting({}, n, j) == {};
    }
    MovesKeepBalance(s0, start, n, ms);
    assert Waiting(s.inFlight, n, k) == {};
    TicketsAreFair(start, |s.returned|, n, k);
  }

  // ------------------------------------------------- fairness across the wrap

  /** Each slot was returned floor(m/n) or ceil(m/n) times, m being the number of calls. */
  ghost predicate Fair(returned: seq<nat>, n: nat)
    requires n > 0
  {
    forall k :: 0 <= k < n ==> |returned| / n <= Count(returned, k) <= (|returned| + n - 1) / n
  }

  /** Every run of this pool size is fair, wherever the counter stands. */
  ghost predicate AlwaysFair(n: nat)
    requires n > 0
  {
    forall start: nat, ms: seq<Move> ::
      Moves(Callers(start, {}, []), n, ms).inFlight == {} ==> Fair(Moves(Callers(start, {}, []), n, ms).returned, n)
  }

  /** m calls, each of which returns before the next. */
  function InTurn(start: nat, m: nat): seq<Move> {
    if m == 0 then [] else InTurn(start, m - 1) + [TakeTicket, Return(start + m - 1)]
  }

  function SlotsInTurn(start: nat, m: nat, n: nat): seq<nat>
    requires n > 0
  {
    seq<nat>(m, i requires 0 <= i < m => Slot((start + i) % TWO_64, 0, n))
  }

  lemma {:induction false} MovesAppend(s: Callers, n: nat, a: seq<Move>, b: seq<Move>)
    requires n > 0
    ensures Moves(s, n, a + b) == Moves(Moves(s, n, a), n, b)
    decreases |a|
  {
    if a == [] {
      assert a + b == b;
    } else {
      AppendPeels(a, b);
      MovesAppend(Moved(s, n, a[0]), n, a[1..], b);
    }
  }

  lemma OneCall(s: Callers, n: nat)
    requires n > 0 && s.inFlight == {}
    ensures Moves(s, n, [TakeTicket, Return(s.next)]) ==
      Callers(s.next + 1, {}, s.returned + [Slot(s.next % TWO_64, 0, n)])
  {
    var taken := Moved(s, n, TakeTicket);
    var ms := [TakeTicket, Return(s.next)];
    assert ms[1..] == [Return(s.next)] && [Return(s.next)][1..] == [];
    assert taken.inFlight - {s.next} == {};
    assert Moves(taken, n, [Return(s.next)]) == Moved(taken, n, Return(s.next));
  }

  lemma {:induction false} InTurnReturns(start: nat, m: nat, n: nat)
    requires n > 0
    ensures Moves(Callers(start, {}, []), n, InTurn(start, m)) == Callers(start + m, {}, SlotsInTurn(start, m, n))
  {
    if m > 0 {
      InTurnReturns(start, m - 1, n);
      MovesAppend(Callers(start, {}, []), n, InTurn(start, m - 1), [TakeTicket, Return(start + m - 1)]);
      OneCall(Callers(start + m - 1, {}, SlotsInTurn(start, m - 1, n)), n);
    }
  }

  lemma {:induction false} CountFirst(xs: seq<nat>)
    requires xs != []
    ensures Count(xs, xs[0]) >= 1
  {
    if |xs| > 1 {
      CountFirst(xs[..|xs| - 1]);
    }
  }

  /** From 2^64 - 1 on, with r = 2^64 mod n, the first and the last of r + 1 calls return the same slot. */
  lemma SlotReturnsAfterWrap(n: nat)
    requires n > 0 && TWO_64 % n > 0
    ensures var r := TWO_64 % n;
      var xs := SlotsInTurn(TWO_64 - 1, r + 1, n);
      xs[0] == r - 1 && xs[r] == r - 1
  {
    var q, r := TWO_64 / n, TWO_64 % n;
    assert TWO_64 == q * n + r;
    RemainderUnique(TWO_64 - 1, q, n, r - 1);
    assert (TWO_64 - 1) % TWO_64 == TWO_64 - 1;
    assert r - 1 < TWO_64;
    assert (TWO_64 - 1 + r) % TWO_64 == r - 1;
    RemainderUnique(r - 1, 0, n, r - 1);
  }

  lemma SmallCeiling(m: nat, n: nat)
    requires 1 <= m <= n
    ensures (m + n - 1) / n == 1
  {
    QuotientUnique(m + n - 1, 1, n);
  }

  /** So a pool whose size does not divide 2^64 has an unfair run: of r + 1 calls, at most n, two
      return the same slot. */
  lemma SkewedRunIsUnfair(n: nat)
    requires n > 0 && TWO_64 % n > 0
    ensures !Fair(SlotsInTurn(TWO_64 - 1, TWO_64 % n + 1, n), n)
  {
    var r := TWO_64 % n;
    var xs := SlotsInTurn(TWO_64 - 1, r + 1, n);
    SlotReturnsAfterWrap(n);
    var init := xs[..|xs| - 1];
    assert init[0] == xs[0];
    CountFirst(init);
    assert Count(xs, r - 1) == Count(init, r - 1) + 1;
    SmallCeiling(|xs|, n);
  }

  /** Round robin is fair for every start and every interleaving, crossings of 2^64 included,
      exactly when the pool size divides 2^64. */
  lemma AlwaysFairIff(n: nat)
    requires n > 0
    ensures AlwaysFair(n) <==> TWO_64 % n == 0
  {
    if TWO_64 % n == 0 {
      forall start: nat, ms: seq<Move> | Moves(Callers(start, {}, []), n, ms).inFlight == {}
        ensures Fair(Moves(Callers(start, {}, []), n, ms).returned, n)
      {
        forall k | 0 <= k < n
          ensures var s := Moves(Callers(start, {}, []), n, ms);
            |s.returned| / n <= Count(s.returned, k) <= (|s.returned| + n - 1) / n
        {
          RoundRobinIsFair(start, n, ms, k);
        }
      }
    } else {
      var m := TWO_64 % n + 1;
      InTurnReturns(TWO_64 - 1, m, n);
      SkewedRunIsUnfair(n);
      var s := Moves(Callers(TWO_64 - 1, {}, []), n, InTurn(TWO_64 - 1, m));
      assert s.inFlight == {} && !Fair(s.returned, n);
    }
  }
}
