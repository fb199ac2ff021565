/**
 Arithmetic of the thread pool's submission ring: its capacity, and the slots that
 the ever-growing head and tail counters select.  Counter values are multiples of
 STRIDE; ticket number k stands for the counter value STRIDE * k.
 */
module TicketArithmetic {

  const STRIDE := 7
  const SIZE_T := Pow2(64)    // size_t arithmetic is modulo this
  const UNSIGNED := Pow2(32)  // unsigned arithmetic is modulo this

  function Pow2(e: nat): (p: nat)
    ensures p >= 1
  {
    if e == 0 then 1 else 2 * Pow2(e - 1)
  }

  ghost predicate IsPow2(n: nat) {
    exists e: nat :: n == Pow2(e)
  }

  /** std::bit_ceil: the least power of two that is not below n. */
  function BitCeil(n: nat): (p: nat)
    ensures p >= n && p >= 1
    ensures n >= 2 ==> p < 2 * n
    ensures IsPow2(p)
    decreases n
  {
    if n <= 1 then
      assert 1 == Pow2(0);
      1
    else
      var half := BitCeil((n + 1) / 2);
      assert IsPow2(2 * half) by {
        var e: nat :| half == Pow2(e);
        assert 2 * half == Pow2(e + 1);
      }
      2 * half
  }

  /** The number of slots the constructor allocates; the product is computed in `unsigned`. */
  function Capacity(threads: nat): nat {
    BitCeil(threads) * 512 % UNSIGNED
  }

  function Slot(ticket: nat, cap: nat): (a: nat)
    requires cap > 0
    ensures a < cap
  {
    STRIDE * ticket % cap
  }

  // ----- powers of two

  lemma {:induction false} Pow2Add(a: nat, b: nat)
    ensures Pow2(a + b) == Pow2(a) * Pow2(b)
  {
    if a > 0 {
      Pow2Add(a - 1, b);
      assert Pow2(a + b) == 2 * Pow2(a - 1 + b);
    }
  }

  lemma {:induction false} Pow2Mono(a: nat, b: nat)
    requires a <= b
    ensures Pow2(a) <= Pow2(b)
    ensures a < b ==> Pow2(a) < Pow2(b)
  {
    if a < b {
      Pow2Mono(a, b - 1);
    }
  }

  lemma BitCeilExponent(n: nat, m: nat) returns (e: nat)
    requires 1 <= n
    ensures BitCeil(n) == Pow2(e)
    ensures n <= Pow2(m) <==> e <= m
  {
    e :| BitCeil(n) == Pow2(e);
    if e <= m {
      Pow2Mono(e, m);
    } else {
      Pow2Mono(m, e - 1);
      assert Pow2(e) == 2 * Pow2(e - 1);
      assert Pow2(0) == 1;
      assert Pow2(e) >= 2;
    }
  }

  // ----- division with a remainder

  lemma MulAtLeast(a: int, d: int)
    requires a >= 1 && d >= 0
    ensures a * d >= d
  {
    assert a * d == d + (a - 1) * d;
  }

  /** Quotient and remainder are unique. */
  lemma ModUnique(x: nat, q: int, r: nat, d: nat)
    requires r < d && x == q * d + r
    ensures x % d == r
  {
    var q', r' := x / d, x % d;
    assert x == q' * d + r';
    assert (q - q') * d == r' - r;
    if q > q' {
      MulAtLeast(q - q', d);
    } else if q' > q {
      MulAtLeast(q' - q, d);
    }
  }

  lemma DivMod(x: nat, d: nat) returns (q: nat)
    requires d > 0
    ensures x == q * d + x % d
  {
    q := x / d;
  }

  lemma AddMultiple(x: nat, q: nat, d: nat)
    requires d > 0
    ensures (x + q * d) % d == x % d
  {
    var q0 := DivMod(x, d);
    assert x + q * d == (q0 + q) * d + x % d;
    ModUnique(x + q * d, q0 + q, x % d, d);
  }

  /** The capacity is a power of two that holds one slot per thread, and not zero, exactly up to
      4194304 threads: from there on the 32-bit product wraps to zero. */
  lemma CapacityHoldsThreads(threads: nat)
    requires 1 <= threads <= Pow2(31)
    ensures threads <= Pow2(22) ==> IsPow2(Capacity(threads)) && threads * 512 <= Capacity(threads) < UNSIGNED
    ensures threads > Pow2(22) ==> Capacity(threads) == 0
    ensures threads <= Capacity(threads) <==> threads <= Pow2(22)
  {
    assert Pow2(9) == 512;
    hide Pow2, BitCeil;
    var e := BitCeilExponent(threads, 22);
    ProductOfPowers(e, 9, 32);
  }

  lemma ProductOfPowers(a: nat, b: nat, w: nat)
    ensures Pow2(a) * Pow2(b) % Pow2(w) == if a + b < w then Pow2(a + b) else 0
    ensures a + b < w ==> Pow2(a) * Pow2(b) == Pow2(a + b) < Pow2(w)
  {
    Pow2Add(a, b);
    if a + b < w {
      Pow2Mono(a + b, w);
      ModUnique(Pow2(a + b), 0, Pow2(a + b), Pow2(w));
    } else {
      Pow2Add(a + b - w, w);
      ModUnique(Pow2(a + b), Pow2(a + b - w), 0, Pow2(w));
    }
  }

  // ----- the slot map

  lemma {:induction false} SevenIsInvertible(e: nat, d: nat, q: nat) returns (g: nat)
    requires STRIDE * d == q * Pow2(e)
    ensures d == g * Pow2(e)
  {
    if e == 0 {
      g := d;
    } else {
      var p := Pow2(e - 1);
      assert q * Pow2(e) == 2 * (q * p);
      var h := d / 2;
      assert d == 2 * h;
      g := SevenIsInvertible(e - 1, h, q);
      assert g * Pow2(e) == 2 * (g * p);
    }
  }

  /** Two tickets share a slot only a whole number of laps apart. */
  lemma SlotGap(i: nat, j: nat, cap: nat) returns (laps: nat)
    requires IsPow2(cap) && i < j
    requires Slot(i, cap) == Slot(j, cap)
    ensures laps >= 1 && j - i == laps * cap
    ensures j - i >= cap
  {
    var e: nat :| cap == Pow2(e);
    var qi := DivMod(STRIDE * i, cap);
    var qj := DivMod(STRIDE * j, cap);
    assert STRIDE * (j - i) == (qj - qi) * cap;
    if qj <= qi {
      assert false;
    }
    laps := SevenIsInvertible(e, j - i, qj - qi);
    if laps == 0 { assert false; }
    MulAtLeast(laps, cap);
  }

  /** The counters are size_t, so they wrap; the slots they select do not notice. */
  lemma SlotSurvivesWrap(ticket: nat, e: nat)
    requires e <= 64
    ensures (STRIDE * ticket % SIZE_T) % Pow2(e) == Slot(ticket, Pow2(e))
  {
    Pow2Add(64 - e, e);
    ModOfMultiple(STRIDE * ticket, Pow2(64 - e), Pow2(e));
  }

  lemma ModOfMultiple(x: nat, laps: nat, d: nat)
    requires laps > 0 && d > 0
    ensures laps * d > 0
    ensures (x % (laps * d)) % d == x % d
  {
    MulAtLeast(laps, d);
    var m := laps * d;
    var q := DivMod(x, m);
    assert q * m == (q * laps) * d;
    AddMultiple(x % m, q * laps, d);
  }

  /** Every slot is used: some ticket below the capacity selects it. */
  lemma {:induction false} SlotReached(e: nat, a: nat) returns (k: nat, m: nat)
    requires a < Pow2(e)
    ensures k < Pow2(e) && STRIDE * k == m * Pow2(e) + a
  {
    if e == 0 {
      k, m := 0, 0;
    } else {
      var p := Pow2(e - 1);
      var b := if a < p then a else a - p;
      var k0, q := SlotReached(e - 1, b);
      // 7 * k0 is b modulo p, hence b or b + p modulo 2p; adding p to the ticket swaps the two
      var same := (q % 2 == 0) == (a < p);
      k := if same then k0 else k0 + p;
      var laps := if same then q else q + 7;
      m := laps / 2;
      Halve(laps, m, p, b, a);
      assert same || STRIDE * k == STRIDE * k0 + 7 * p;
      assert (q + 7) * p == q * p + 7 * p;
    }
  }

  lemma Halve(laps: nat, m: nat, p: nat, b: nat, a: nat)
    requires (laps == 2 * m && a == b) || (laps == 2 * m + 1 && a == b + p)
    ensures laps * p + b == m * (2 * p) + a
  {
    assert m * (2 * p) == (2 * m) * p;
    assert (2 * m + 1) * p == (2 * m) * p + p;
  }

  /** Any `cap` consecutive tickets visit each slot, and visit it once. */
  lemma LapVisitsEverySlotOnce(start: nat, cap: nat, a: nat) returns (k: nat)
    requires IsPow2(cap) && a < cap
    ensures start <= k < start + cap && Slot(k, cap) == a
    ensures forall j: nat :: start <= j < start + cap && Slot(j, cap) == a ==> j == k
  {
    k := LapVisits(start, cap, a);
    hide Slot;
    forall j: nat | start <= j < start + cap && Slot(j, cap) == a ensures j == k {
      if j < k { var _ := SlotGap(j, k, cap); }
      if k < j { var _ := SlotGap(k, j, cap); }
    }
  }

  lemma LapVisits(start: nat, cap: nat, a: nat) returns (k: nat)
    requires IsPow2(cap) && a < cap
    ensures start <= k < start + cap && Slot(k, cap) == a
  {
    var e: nat :| cap == Pow2(e);
    var r, m := SlotReached(e, a);
    var q := DivMod(start, cap);
    var laps := if r >= start % cap then q else q + 1;
    assert (q + 1) * cap == q * cap + cap;
    k := laps * cap + r;
    SlotOfShifted(r, m, laps, cap, a);
  }

  lemma SlotOfShifted(r: nat, m: nat, laps: nat, cap: nat, a: nat)
    requires a < cap && STRIDE * r == m * cap + a
    ensures Slot(laps * cap + r, cap) == a
  {
    var k := laps * cap + r;
    assert STRIDE * (laps * cap) == (STRIDE * laps) * cap;
    assert STRIDE * k == (STRIDE * laps + m) * cap + a;
    ModUnique(STRIDE * k, STRIDE * laps + m, a, cap);
  }

  // ----- how often the first n tickets visit a slot

  function Visits(n: nat, a: nat, cap: nat): nat
    requires cap > 0
  {
    if n == 0 then 0 else Visits(n - 1, a, cap) + if Slot(n - 1, cap) == a then 1 else 0
  }

  lemma {:induction false} VisitsMono(m: nat, n: nat, a: nat, cap: nat)
    requires cap > 0 && m <= n
    ensures Visits(m, a, cap) <= Visits(n, a, cap)
  {
    if m < n { VisitsMono(m, n - 1, a, cap); }
  }

  /** Within one lap a slot is visited at most once more, so two more visits need over a lap. */
  lemma {:induction false} VisitsWithinLap(m: nat, n: nat, a: nat, cap: nat)
    requires IsPow2(cap) && cap > 0 && m <= n <= m + cap
    ensures Visits(n, a, cap) <= Visits(m, a, cap) + 1
    ensures Visits(n, a, cap) == Visits(m, a, cap) + 1
            <==> exists k: nat :: m <= k < n && Slot(k, cap) == a
  {
    hide Slot;
    if m < n {
      VisitsWithinLap(m, n - 1, a, cap);
      if Slot(n - 1, cap) == a {
        forall k: nat | m <= k < n - 1 && Slot(k, cap) == a ensures false {
          var _ := SlotGap(k, n - 1, cap);
        }
        VisitsMono(m, n - 1, a, cap);
      } else if k: nat :| m <= k < n && Slot(k, cap) == a {
        assert m <= k < n - 1;
      }
    }
  }
}
