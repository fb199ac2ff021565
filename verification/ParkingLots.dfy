/**
 Parking lots: wait queues on intrusive lists.  Waking an awaiter resumes its handle, and what
 runs then may park, cancel and wake awaiters of the same lot before it returns.  How often it does
 so in all is bounded by `fuel`, which is arbitrary; a call during which none is spent is described
 exactly.  Every wake-up is recorded with the level at which it is made: what runs inside a call is
 a level above it, so that a call's own wake-ups can be told from the others.
 */
module ParkingLots {
  import opened Collections
  import opened IntrusiveLists
  import opened Options

  /** What happens to an awaiter: it is parked, leaves without being woken, or is woken. */
  datatype Event = Parks(x: Item) | Leaves(x: Item) | Woke(x: Item)

  /** The first thing that happens to an awaiter. */
  function First(log: seq<Event>, x: Item): Option<Event> {
    if log == [] then None else if log[0].x == x then Some(log[0]) else First(log[1..], x)
  }

  /** Those to whom nothing has happened. */
  function Untouched(xs: seq<Item>, log: seq<Event>): seq<Item> {
    if xs == [] then [] else (if First(log, xs[0]).None? then [xs[0]] else []) + Untouched(xs[1..], log)
  }

  /** Those who were woken before anything else happened to them: in the order of the queue... */
  function WokenInQueue(xs: seq<Item>, log: seq<Event>): seq<Item> {
    if xs == [] then [] else (if First(log, xs[0]) == Some(Woke(xs[0])) then [xs[0]] else []) + WokenInQueue(xs[1..], log)
  }

  /** ...and in the order in which it happened. */
  function WokenInTime(xs: seq<Item>, log: seq<Event>): seq<Item> {
    if log == [] then []
    else
      var before, e := log[..|log| - 1], log[|log| - 1];
      WokenInTime(xs, before) + if e.Woke? && e.x in xs && First(before, e.x).None? then [e.x] else []
  }

  // ----- about logs

  lemma {:induction false} FirstConcat(a: seq<Event>, b: seq<Event>, x: Item)
    ensures First(a + b, x) == if First(a, x).None? then First(b, x) else First(a, x)
  {
    if a == [] {
      assert a + b == b;
    } else {
      assert (a + b)[0] == a[0] && (a + b)[1..] == a[1..] + b;
      FirstConcat(a[1..], b, x);
    }
  }

  lemma {:induction false} FirstIsOwn(log: seq<Event>, x: Item)
    ensures First(log, x).Some? ==> First(log, x).value.x == x
  {
    if log != [] { FirstIsOwn(log[1..], x); }
  }

  lemma {:induction false} UntouchedConcat(xs: seq<Item>, a: seq<Event>, b: seq<Event>)
    ensures Untouched(Untouched(xs, a), b) == Untouched(xs, a + b)
  {
    if xs != [] {
      UntouchedConcat(xs[1..], a, b);
      FirstConcat(a, b, xs[0]);
      var rest := Untouched(xs[1..], a);
      assert ([xs[0]] + rest)[1..] == rest;
      assert [] + rest == rest;
    }
  }

  lemma {:induction false} WokenSplit(xs: seq<Item>, ys: seq<Item>, log: seq<Event>)
    ensures WokenInQueue(xs + ys, log) == WokenInQueue(xs, log) + WokenInQueue(ys, log)
  {
    hide First;
    if xs == [] {
      assert xs + ys == ys;
    } else {
      assert (xs + ys)[0] == xs[0] && (xs + ys)[1..] == xs[1..] + ys;
      WokenSplit(xs[1..], ys, log);
    }
  }

  lemma {:induction false} NotWoken(xs: seq<Item>, log: seq<Event>)
    requires forall i :: 0 <= i < |xs| ==> First(log, xs[i]) != Some(Woke(xs[i]))
    ensures WokenInQueue(xs, log) == []
  {
    if xs != [] { NotWoken(xs[1..], log); }
  }

  /** Where the first untouched one is. */
  lemma {:induction false} FirstUntouched(xs: seq<Item>, log: seq<Event>) returns (k: nat)
    requires Untouched(xs, log) != []
    ensures k < |xs| && xs[k] == Untouched(xs, log)[0] && First(log, xs[k]).None?
    ensures forall i :: 0 <= i < k ==> First(log, xs[i]).Some?
  {
    if First(log, xs[0]).None? {
      k := 0;
    } else {
      k := FirstUntouched(xs[1..], log);
      k := k + 1;
    }
  }

  lemma {:induction false} NoneUntouched(xs: seq<Item>, log: seq<Event>)
    ensures (forall i :: 0 <= i < |xs| ==> First(log, xs[i]).Some?) <==> Untouched(xs, log) == []
    ensures (forall i :: 0 <= i < |xs| ==> First(log, xs[i]).None?) ==> Untouched(xs, log) == xs
  {
    if xs != [] {
      NoneUntouched(xs[1..], log);
      assert forall i :: 0 < i < |xs| ==> xs[i] == xs[1..][i - 1];
    }
  }

  /** What happens later does not matter to those who have been touched. */
  lemma {:induction false} WokenStays(xs: seq<Item>, a: seq<Event>, b: seq<Event>)
    requires forall i :: 0 <= i < |xs| ==> First(a, xs[i]).Some? || First(b, xs[i]) != Some(Woke(xs[i]))
    ensures WokenInQueue(xs, a + b) == WokenInQueue(xs, a)
  {
    if xs != [] {
      assert xs[0] == xs[..][0];
      FirstConcat(a, b, xs[0]);
      assert forall i :: 0 <= i < |xs| - 1 ==> xs[1..][i] == xs[i + 1];
      WokenStays(xs[1..], a, b);
    }
  }

  /** Wakings that are not the first thing to happen do not count. */
  lemma {:induction false} WokenInTimeQuiet(xs: seq<Item>, a: seq<Event>, b: seq<Event>)
    requires forall i :: 0 <= i < |xs| ==> First(a, xs[i]).Some? || First(b, xs[i]) != Some(Woke(xs[i]))
    ensures WokenInTime(xs, a + b) == WokenInTime(xs, a)
  {
    if b == [] {
      assert a + b == a;
    } else {
      var c, e := b[..|b| - 1], b[|b| - 1];
      assert b == c + [e] && (a + b)[..|a + b| - 1] == a + c && (a + b)[|a + b| - 1] == e;
      forall i | 0 <= i < |xs| ensures First(a, xs[i]).Some? || First(c, xs[i]) != Some(Woke(xs[i])) {
        FirstConcat(c, [e], xs[i]);
      }
      WokenInTimeQuiet(xs, a, c);
      FirstConcat(a, c, e.x);
      FirstConcat(c, [e], e.x);
      if e.x in xs {
        var i :| 0 <= i < |xs| && xs[i] == e.x;
        assert First([e], e.x) == Some(e);
      }
    }
  }

  lemma {:induction false} UntouchedByOne(xs: seq<Item>, e: Event)
    ensures Untouched(xs, [e]) == Without(xs, e.x)
  {
    if xs != [] {
      UntouchedByOne(xs[1..], e);
      assert First([e], xs[0]) == if e.x == xs[0] then Some(e) else First([], xs[0]);
    }
  }

  // ----- lists that a lot's operations do not add to

  /** Apart from the exempted ones, lists only lose items, and none of their items is woken. */
  ghost predicate Quiet(w: World, exempt: set<Item>, log: seq<Event>, v: World) {
    match w
    case World(items, lists, _) =>
      && v.items == items && v.lists.Keys == lists.Keys
      && (forall h :: h in lists && h !in exempt ==> v.lists[h] == Untouched(lists[h], log))
      && (forall h, i :: h in lists && h !in exempt && 0 <= i < |lists[h]| ==> OnlyLeft(log, lists[h][i]))
  }

  predicate OnlyLeft(log: seq<Event>, x: Item) {
    First(log, x) in {None, Some(Leaves(x))}
  }

  predicate WokenOrLeft(log: seq<Event>, x: Item) {
    First(log, x) in {Some(Woke(x)), Some(Leaves(x))}
  }

  lemma QuietNothing(w: World, exempt: set<Item>)
    ensures Quiet(w, exempt, [], w)
  {
    forall h | h in w.lists ensures Untouched(w.lists[h], []) == w.lists[h] { NoneUntouched(w.lists[h], []); }
  }

  lemma QuietThen(w: World, exempt: set<Item>, a: seq<Event>, v: World, b: seq<Event>, u: World)
    requires Quiet(w, exempt, a, v) && Quiet(v, exempt, b, u)
    ensures Quiet(w, exempt, a + b, u)
  {
    forall h | h in w.lists && h !in exempt ensures u.lists[h] == Untouched(w.lists[h], a + b) {
      UntouchedConcat(w.lists[h], a, b);
    }
    forall h, i | h in w.lists && h !in exempt && 0 <= i < |w.lists[h]| ensures OnlyLeft(a + b, w.lists[h][i]) {
      var x := w.lists[h][i];
      FirstConcat(a, b, x);
      if First(a, x).None? {
        var j := UntouchedStays(w.lists[h], a, i);
        assert v.lists[h][j] == x;
      }
    }
  }

  lemma {:induction false} UntouchedStays(xs: seq<Item>, log: seq<Event>, i: nat) returns (j: nat)
    requires i < |xs| && First(log, xs[i]).None?
    ensures j < |Untouched(xs, log)| && Untouched(xs, log)[j] == xs[i]
  {
    if i == 0 {
      j := 0;
    } else {
      j := UntouchedStays(xs[1..], log, i - 1);
      if First(log, xs[0]).None? { j := j + 1; }
    }
  }

  lemma QuietMore(w: World, exempt: set<Item>, more: set<Item>, log: seq<Event>, v: World)
    requires Quiet(w, exempt, log, v) && exempt <= more
    ensures Quiet(w, more, log, v)
  {
  }

  /** One event, about an item that is then in no list. */
  lemma QuietUnlinked(w: World, exempt: set<Item>, e: Event)
    requires Separate(w) && (e.Leaves? || e.x !in w.owner || w.owner[e.x] in exempt)
    ensures Quiet(w, exempt, [e], Unlinked(w, e.x))
  {
    var v := Unlinked(w, e.x);
    forall h | h in w.lists && h !in exempt ensures v.lists[h] == Untouched(w.lists[h], [e]) {
      UntouchedByOne(w.lists[h], e);
      if !(e.x in w.owner && w.owner[e.x] == h) {
        WithoutAbsent(w.lists[h], e.x);
      }
    }
    forall h, i | h in w.lists && h !in exempt && 0 <= i < |w.lists[h]| ensures OnlyLeft([e], w.lists[h][i]) {
      FirstOfOne(e, w.lists[h][i]);
    }
  }

  lemma FirstOfOne(e: Event, x: Item)
    ensures First([e], x) == if e.x == x then Some(e) else None
  {
    assert First([], x) == None;
  }

  /** What await_cancel() reports. */
  function Leaving(w: World, x: Item): seq<Event> {
    if x in w.owner then [Leaves(x)] else []
  }

  lemma QuietLeaving(w: World, exempt: set<Item>, x: Item)
    requires Separate(w)
    ensures Quiet(w, exempt, Leaving(w, x), Unlinked(w, x))
  {
    if x in w.owner { QuietUnlinked(w, exempt, Leaves(x)); } else { QuietNothing(w, exempt); }
  }

  lemma QuietPushed(w: World, lot: Item, x: Item)
    requires Separate(w) && lot in w.lists && x in w.items && x !in w.lists
    ensures Quiet(w, {lot}, Leaving(w, x) + [Parks(x)], Pushed(w, lot, x))
  {
    var u := Unlinked(w, x);
    UnlinkedSeparate(w, x);
    QuietLeaving(w, {lot}, x);
    QuietUnlinked(u, {lot}, Parks(x));
    assert Quiet(u, {lot}, [Parks(x)], Pushed(w, lot, x));
    QuietThen(w, {lot}, Leaving(w, x), u, [Parks(x)], Pushed(w, lot, x));
  }

  lemma PushedFacts(w: World, lot: Item, x: Item)
    requires Consistent(w) && lot in w.lists && x in w.items && x !in w.lists
    ensures var v := Pushed(w, lot, x);
            && v.items == w.items && v.lists.Keys == w.lists.Keys && v.owner.Keys == w.owner.Keys + {x}
            && v.lists[lot] == Without(w.lists[lot], x) + [x]
  {
    PushedEverywhere(w, lot, x, lot);
    UnlinkedSeparate(w, x);
  }

  lemma ListFacts(w: World, h: Item)
    requires Consistent(w) && h in w.lists
    ensures Separate(w) && h in w.items && Distinct(w.lists[h])
  {
  }

  lemma QuietKeepsItems(w: World, exempt: set<Item>, log: seq<Event>, v: World)
    requires Quiet(w, exempt, log, v)
    ensures v.items == w.items && v.lists.Keys == w.lists.Keys
  {
  }

  lemma MovedFacts(w: World, from: Item, to: Item)
    requires Separate(w) && from in w.lists && to !in w.items
    ensures var v := Moved(w, from, to);
            && v.items == w.items + {to} && v.lists == w.lists[from := []][to := w.lists[from]] && v.owner.Keys == w.owner.Keys
            && to != from && Distinct(w.lists[from])
  {
  }

  lemma OwnerFacts(w: World, x: Item)
    requires Consistent(w) && x in w.owner
    ensures Separate(w) && x in w.items && x !in w.lists
  {
  }

  // ----- one turn of the loop of unparkAll()

  /** So far, everybody in front of `k` has been dealt with, and nobody behind has been woken. */
  ghost predicate WokenUpTo(q: seq<Item>, k: nat, log: seq<Event>) {
    && k <= |q|
    && (forall i :: 0 <= i < k ==> WokenOrLeft(log, q[i]))
    && (forall i :: k <= i < |q| ==> OnlyLeft(log, q[i]))
    && WokenInTime(q, log) == WokenInQueue(q[..k], log)
  }

  lemma StartWaking(q: seq<Item>)
    ensures WokenUpTo(q, 0, []) && WokenInTime(q, []) == [] && Untouched(q, []) == q
  {
    NoneUntouched(q, []);
    assert q[..0] == [];
  }

  /** `x` is unlinked from the moved list and woken, and then `e` happens. */
  lemma OneTurn(w1: World, lot: Item, local: Item, q: seq<Item>, k: nat, log: seq<Event>, w: World, e: seq<Event>, v: World) returns (k': nat)
    requires Separate(w) && Distinct(q) && WokenUpTo(q, k, log) && local in w.lists && local != lot
    requires w.lists[local] == Untouched(q, log) != [] && Quiet(w1, {lot, local}, log, w)
    requires Quiet(Unlinked(w, w.lists[local][0]), {lot}, e, v)
    ensures var x := w.lists[local][0];
            var log' := log + [Woke(x)] + e;
            && WokenUpTo(q, k', log') && WokenInTime(q, log') == WokenInTime(q, log) + [x]
            && Quiet(w1, {lot, local}, log', v) && local in v.lists && v.items == w.items
            && v.lists[local] == Untouched(q, log') && |v.lists[local]| < |w.lists[local]|
  {
    var x := w.lists[local][0];
    var u, a := Unlinked(w, x), log + [Woke(x)];
    k' := WakeFront(q, k, log);
    UnlinkedSeparate(w, x);
    assert w.owner[x] == local;
    assert u.lists[local] == Untouched(q, a);
    WakeQuiet(q, k', a, e);
    UntouchedConcat(q, a, e);
    UntouchedShorter(u.lists[local], e);
    WithoutAt(w.lists[local], 0);
    QuietUnlinked(w, {lot, local}, Woke(x));
    QuietThen(w1, {lot, local}, log, w, [Woke(x)], u);
    QuietMore(u, {lot}, {lot, local}, e, v);
    QuietThen(w1, {lot, local}, a, u, e, v);
  }

  lemma {:induction false} UntouchedShorter(xs: seq<Item>, log: seq<Event>)
    ensures |Untouched(xs, log)| <= |xs|
  {
    if xs != [] { UntouchedShorter(xs[1..], log); }
  }

  /** Nobody is left in the moved list. */
  lemma AllWoken(q: seq<Item>, k: nat, log: seq<Event>)
    requires WokenUpTo(q, k, log) && Untouched(q, log) == []
    ensures forall i :: 0 <= i < |q| ==> WokenOrLeft(log, q[i])
    ensures WokenInQueue(q, log) == WokenInTime(q, log)
  {
    NoneUntouched(q, log);
    assert q == q[..k] + q[k..];
    WokenSplit(q[..k], q[k..], log);
    NotWoken(q[k..], log);
  }

  /** The moved list is gone: the others are as if it had never been there. */
  lemma MovedAndDisposed(w0: World, lot: Item, local: Item, log: seq<Event>, w: World)
    requires Separate(w0) && lot in w0.lists && local !in w0.items && Separate(w) && local in w.lists
    requires Quiet(Moved(w0, lot, local), {lot, local}, log, w)
    ensures Quiet(w0, {lot}, log, Disposed(w, local)) && Disposed(w, local).owner.Keys <= w.owner.Keys
    ensures lot in w.lists && lot in Disposed(w, local).lists && Disposed(w, local).lists[lot] == w.lists[lot]
  {
    var w1, v := Moved(w0, lot, local), Disposed(w, local);
    forall h | h in w0.lists && h != lot
      ensures v.lists[h] == Untouched(w0.lists[h], log)
      ensures forall i :: 0 <= i < |w0.lists[h]| ==> OnlyLeft(log, w0.lists[h][i])
    {
      assert w1.lists[h] == w0.lists[h] && v.lists[h] == w.lists[h];
    }
  }

  lemma WakeFront(q: seq<Item>, k: nat, log: seq<Event>) returns (k': nat)
    requires Distinct(q) && WokenUpTo(q, k, log) && Untouched(q, log) != []
    ensures var x := Untouched(q, log)[0];
            && WokenUpTo(q, k', log + [Woke(x)])
            && Untouched(q, log + [Woke(x)]) == Without(Untouched(q, log), x)
            && WokenInQueue(q[..k'], log + [Woke(x)]) == WokenInQueue(q[..k], log) + [x]
  {
    hide First;
    k' := FirstUntouched(q, log);
    var x, e := q[k'], [Woke(q[k'])];
    UntouchedConcat(q, log, e);
    UntouchedByOne(Untouched(q, log), e[0]);
    forall i | 0 <= i < |q| ensures First(log + e, q[i]) == if i == k' then Some(Woke(x)) else First(log, q[i]) {
      FirstConcat(log, e, q[i]);
      FirstOfOne(e[0], q[i]);
    }
    assert (log + e)[..|log + e| - 1] == log && (log + e)[|log + e| - 1] == Woke(x);
    assert WokenInTime(q, log + e) == WokenInTime(q, log) + [x];
    // between the two positions there are only items that have left
    assert q[..k'] == q[..k] + q[k..k'] && q[..k' + 1] == q[..k'] + [x];
    WokenSplit(q[..k], q[k..k'], log);
    NotWoken(q[k..k'], log);
    WokenStays(q[..k'], log, e);
    WokenSplit(q[..k'], [x], log + e);
    assert WokenInQueue([x], log + e) == [x] + WokenInQueue([], log + e);
    k' := k' + 1;
  }

  lemma WakeQuiet(q: seq<Item>, k: nat, a: seq<Event>, b: seq<Event>)
    requires WokenUpTo(q, k, a)
    requires forall j :: 0 <= j < |Untouched(q, a)| ==> OnlyLeft(b, Untouched(q, a)[j])
    ensures WokenUpTo(q, k, a + b) && WokenInQueue(q[..k], a + b) == WokenInQueue(q[..k], a)
  {
    forall i | 0 <= i < |q|
      ensures First(a + b, q[i]) == if First(a, q[i]).None? then First(b, q[i]) else First(a, q[i])
      ensures First(a, q[i]).None? ==> OnlyLeft(b, q[i])
    {
      FirstConcat(a, b, q[i]);
      if First(a, q[i]).None? {
        var j := UntouchedStays(q, a, i);
      }
    }
    WokenInTimeQuiet(q, a, b);
    WokenStays(q[..k], a, b);
  }

  lemma OneMoreItem(w: World, x: Item)
    requires Consistent(w) && x !in w.items && x.next_ == null && x.prev_ == null
    ensures var v := World(w.items + {x}, w.lists, w.owner); Consistent(v) && Loose(v, x)
  {
    assert forall y :: Loose(World(w.items + {x}, w.lists, w.owner), y) ==> y == x || Loose(w, y);
    hide Ring;
  }

  // ----- who makes which wake-up

  const NONE: seq<Item> := []

  datatype Wake = Wake(x: Item, level: nat)

  /** Those woken at one level, in order. */
  function OwnWakes(wakes: seq<Wake>, level: nat): seq<Item> {
    if wakes == [] then []
    else
      var n := |wakes| - 1;
      OwnWakes(wakes[..n], level) + if wakes[n].level == level then [wakes[n].x] else []
  }

  predicate AllFrom(wakes: seq<Wake>, level: nat) {
    forall i :: 0 <= i < |wakes| ==> wakes[i].level >= level
  }

  lemma {:induction false} OwnConcat(a: seq<Wake>, b: seq<Wake>, level: nat)
    ensures OwnWakes(a + b, level) == OwnWakes(a, level) + OwnWakes(b, level)
  {
    if b == [] {
      assert a + b == a;
    } else {
      var n := |b| - 1;
      assert (a + b)[..|a + b| - 1] == a + b[..n] && (a + b)[|a + b| - 1] == b[n];
      OwnConcat(a, b[..n], level);
    }
  }

  lemma {:induction false} OwnOfOthers(wakes: seq<Wake>, level: nat)
    requires AllFrom(wakes, level + 1)
    ensures OwnWakes(wakes, level) == []
  {
    if wakes != [] { OwnOfOthers(wakes[..|wakes| - 1], level); }
  }

  /** What a call, and what it runs, has added to the record: only wake-ups at its level and above. */
  ghost predicate Recorded(before: seq<Wake>, after: seq<Wake>, level: nat, own: seq<Item>) {
    before <= after && AllFrom(after[|before|..], level) && OwnWakes(after[|before|..], level) == own
  }

  lemma NothingRecorded(wakes: seq<Wake>, level: nat)
    ensures Recorded(wakes, wakes, level, [])
  {}

  lemma OneRecorded(wakes: seq<Wake>, level: nat, x: Item)
    ensures Recorded(wakes, wakes + [Wake(x, level)], level, [x])
  {
    var e := [Wake(x, level)];
    assert (wakes + e)[|wakes|..] == e && e[..0] == [];
    assert OwnWakes(e, level) == OwnWakes([], level) + [x];
  }

  lemma RecordedThen(a: seq<Wake>, b: seq<Wake>, c: seq<Wake>, level: nat, xs: seq<Item>, ys: seq<Item>)
    requires Recorded(a, b, level, xs) && Recorded(b, c, level, ys)
    ensures Recorded(a, c, level, xs + ys)
  {
    assert c[|a|..] == b[|a|..] + c[|b|..];
    OwnConcat(b[|a|..], c[|b|..], level);
  }

  lemma RecordedAbove(a: seq<Wake>, b: seq<Wake>, level: nat, own: seq<Item>)
    requires Recorded(a, b, level + 1, own)
    ensures Recorded(a, b, level, [])
  {
    OwnOfOthers(b[|a|..], level);
  }

  lemma FrontUnlinked(w: World, local: Item, lot: Item)
    requires Separate(w) && local in w.lists && lot in w.lists && lot != local && w.lists[local] != []
    ensures var v := Unlinked(w, w.lists[local][0]); local in v.lists && lot in v.lists
    ensures var x := w.lists[local][0]; Unlinked(w, x).lists[local] == w.lists[local][1..] && Unlinked(w, x).lists[lot] == w.lists[lot]
    ensures w.lists[local] == [w.lists[local][0]] + w.lists[local][1..]
  {
    WithoutAt(w.lists[local], 0);
    assert w.owner[w.lists[local][0]] == local;
  }

  lemma MoreWokes(xs: seq<Item>, x: Item)
    ensures Wokes(xs + [x]) == Wokes(xs) + [Woke(x)]
  {}

  lemma NoWokes()
    ensures Wokes([]) == []
  {}

  function Wokes(xs: seq<Item>): seq<Event> {
    seq(|xs|, i requires 0 <= i < |xs| => Woke(xs[i]))
  }

  class Lot {
    const parked_: Item
    var handles: set<Item>  // the awaiters that have a handle to resume
    var w: World            // what all the links mean
    var log: seq<Event>     // what has happened
    var wakes: seq<Wake>    // and who was woken, at which level
    var level: nat          // calls that are under way, one inside the other
    var fuel: nat           // what may still happen inside calls

    /** The links are consistent, and whoever is in a list can be resumed. */
    ghost predicate Valid()
      reads this, w.items`next_, w.items`prev_
    {
      Consistent(w) && parked_ in w.lists && w.owner.Keys <= handles
    }

    constructor (fuel: nat)
      ensures Valid() && w == World({parked_}, map[parked_ := []], map[]) && log == [] && wakes == [] && fresh(parked_)
      ensures level == 0 && this.fuel == fuel
    {
      var list := new Item.List();
      parked_ := list;
      handles := {};
      w := World({list}, map[list := []], map[]);
      log, wakes, level, this.fuel := [], [], 0, fuel;
    }

    /** A new awaiter. */
    method Register() returns (x: Item)
      requires Valid()
      modifies this`w
      ensures Valid() && fresh(x) && Loose(w, x) && w == World(old(w).items + {x}, old(w).lists, old(w).owner)
    {
      x := new Item();
      OneMoreItem(w, x);
      hide Separate, Ring;
      w := World(w.items + {x}, w.lists, w.owner);
    }

    /** Takes an awaiter out of whichever list it is in. */
    method Remove(x: Item)
      requires Valid() && x in w.items && x !in w.lists
      modifies this`w, this`handles, w.items`next_, w.items`prev_
      ensures Valid() && w == Unlinked(old(w), x) && handles == old(handles) - {x}
    {
      UnlinkedSeparate(w, x);
      hide Separate, Consistent, Unlinked, Ring, Loose;
      x.Unlink(w);
      ghost var u := Unlinked(w, x);
      assert Consistent(u);
      handles := handles - {x};
      w := Unlinked(w, x);
      assert Consistent(w);
    }

    /** await_cancel() or the destructor of an awaiter. */
    method Cancel(x: Item)
      requires Valid() && x in w.items && x !in w.lists
      modifies this`w, this`handles, this`log, w.items`next_, w.items`prev_
      ensures Valid() && w == Unlinked(old(w), x)
      ensures log == old(log) + Leaving(old(w), x)
    {
      log := log + Leaving(w, x);
      hide Separate, Consistent, Unlinked, Ring;
      Remove(x);
    }

    /** Makes an awaiter the last of the lot. */
    method Park(x: Item)
      requires Valid() && x in w.items && x !in w.lists
      modifies this`w, this`handles, w.items`next_, w.items`prev_
      ensures Valid() && w == Pushed(old(w), parked_, x) && handles == old(handles) + {x}
      ensures w.lists[parked_] == Without(old(w).lists[parked_], x) + [x]
    {
      hide Separate, Consistent, Pushed, Unlinked, Ring, Loose, Distinct, Without;
      PushedFacts(w, parked_, x);
      parked_.PushBack(x, w);
      ghost var v := Pushed(w, parked_, x);
      assert Consistent(v);
      handles := handles + {x};
      w := Pushed(w, parked_, x);
      assert Consistent(w);
    }

    /** doSuspend() */
    method Suspend(x: Item)
      requires Valid() && x in w.items && x !in w.lists
      modifies this`w, this`handles, this`log, w.items`next_, w.items`prev_
      ensures Valid() && w == Pushed(old(w), parked_, x)
      ensures w.lists[parked_] == Without(old(w).lists[parked_], x) + [x]
      ensures log == old(log) + Leaving(old(w), x) + [Parks(x)]
    {
      hide Separate, Consistent, Pushed, Ring, Loose, Leaving;
      log := log + Leaving(w, x) + [Parks(x)];
      Park(x);
    }

    /** unpark(): resumes the handle of an awaiter, with anything that comes of it. */
    method Unpark(x: Item)
      requires Valid() && x in w.owner
      modifies this, w.items`next_, w.items`prev_
      ensures Valid() && level == old(level) && fuel <= old(fuel)
      ensures old(log) + [Woke(x)] <= log
      ensures Quiet(Unlinked(old(w), x), {parked_}, log[|old(log)| + 1..], w)
      ensures Recorded(old(wakes), wakes, level, [x])
      ensures fuel == old(fuel) ==> w == Unlinked(old(w), x) && log == old(log) + [Woke(x)]
      decreases fuel, 1
    {
      hide Separate, Consistent, Unlinked, Ring, Loose, Quiet, Recorded;
      assert x in w.items && x !in w.lists && Separate(w) by { OwnerFacts(w, x); }
      var resumes := x in handles;
      Remove(x);
      if resumes {
        log := log + [Woke(x)];
        OneRecorded(wakes, level, x);
        wakes := wakes + [Wake(x, level)];
      }
      UnlinkedSeparate(old(w), x);
      ghost var wakes1 := wakes;
      Environment();
      RecordedThen(old(wakes), wakes1, wakes, level, [x], []);
      assert [x] + [] == [x];
    }

    /** What may happen while a task runs: awaiters are parked, cancelled and woken. */
    method Environment()
      requires Valid()
      modifies this, w.items`next_, w.items`prev_
      ensures Valid() && old(log) <= log && Quiet(old(w), {parked_}, log[|old(log)|..], w)
      ensures level == old(level) && fuel <= old(fuel) && Recorded(old(wakes), wakes, level, [])
      ensures fuel == old(fuel) ==> w == old(w) && log == old(log)
      decreases fuel, 0
    {
      hide Separate, Consistent, Unlinked, Pushed, Ring, Loose, Quiet, Leaving, Recorded;
      ghost var seg := [];
      QuietNothing(w, {parked_});
      NothingRecorded(wakes, level);
      var more: bool := *;
      while more && fuel > 0
        invariant Valid() && log == old(log) + seg && Quiet(old(w), {parked_}, seg, w) && w.items == old(w.items)
        invariant level == old(level) && fuel <= old(fuel) && Recorded(old(wakes), wakes, level, [])
        invariant fuel == old(fuel) ==> w == old(w) && log == old(log)
        decreases fuel
      {
        ghost var w0, log0, wakes0 := w, log, wakes;
        fuel, level := fuel - 1, level + 1;
        ghost var own := OneCall();
        assert level == old(level) + 1;
        level := level - 1;
        RecordedAbove(wakes0, wakes, level, own);
        RecordedThen(old(wakes), wakes0, wakes, level, NONE, NONE);
        assert NONE + NONE == NONE;
        ghost var e := log[|log0|..];
        assert w.items == w0.items by { QuietKeepsItems(w0, {parked_}, e, w); }
        QuietThen(old(w), {parked_}, seg, w0, e, w);
        seg := seg + e;
        more := *;
      }
      assert log[|old(log)|..] == seg;
    }

    method OneCall() returns (ghost own: seq<Item>)
      requires Valid()
      modifies this, w.items`next_, w.items`prev_
      ensures Valid() && old(log) <= log && Quiet(old(w), {parked_}, log[|old(log)|..], w)
      ensures level == old(level) && fuel <= old(fuel) && Recorded(old(wakes), wakes, level, own)
      decreases fuel, 5
    {
      hide Separate, Consistent, Unlinked, Pushed, Ring, Loose, Quiet, Leaving, Recorded;
      assert Separate(w) && parked_ in w.items by { ListFacts(w, parked_); }
      NothingRecorded(wakes, level);
      own := [];
      var choice: int := *;
      var x :| x in w.items;
      ghost var n := |log|;
      if choice <= 0 {
        if x !in w.lists {
          QuietLeaving(w, {parked_}, x);
          Cancel(x);
          assert log[n..] == Leaving(old(w), x);
        } else {
          QuietNothing(w, {parked_});
          assert log[n..] == [];
        }
      } else if choice == 1 && x !in w.lists {
        QuietPushed(w, parked_, x);
        Suspend(x);
        assert log[n..] == Leaving(old(w), x) + [Parks(x)];
      } else if choice == 2 {
        own := if w.lists[parked_] == [] then [] else [w.lists[parked_][0]];
        UnparkOne();
      } else {
        own := UnparkAll();
      }
    }

    /** Wakes the awaiter that has been parked for longest, if there is one, and nobody else. */
    method UnparkOne()
      requires Valid()
      modifies this, w.items`next_, w.items`prev_
      ensures Valid() && old(log) <= log && Quiet(old(w), {parked_}, log[|old(log)|..], w)
      ensures level == old(level) && fuel <= old(fuel)
      ensures old(w).lists[parked_] == [] ==> log == old(log) && w == old(w)
      ensures old(w).lists[parked_] != [] ==> old(log) + [Woke(old(w).lists[parked_][0])] <= log
      ensures Recorded(old(wakes), wakes, level, var q := old(w).lists[parked_]; if q == [] then [] else [q[0]])
      ensures fuel == old(fuel) && old(w).lists[parked_] != [] ==>
                var x := old(w).lists[parked_][0]; w == Unlinked(old(w), x) && log == old(log) + [Woke(x)]
      decreases fuel, 2
    {
      hide Separate, Consistent, Unlinked, Ring, Loose, Quiet, Recorded;
      ghost var n := |log|;
      var empty := parked_.Empty(w);
      if empty {
        QuietNothing(w, {parked_});
        NothingRecorded(wakes, level);
        assert log[n..] == [];
      } else {
        var x := parked_.Front(w);
        assert Separate(w) by { OwnerFacts(w, x); }
        QuietUnlinked(w, {parked_}, Woke(x));
        ghost var w0, w1 := w, Unlinked(w, x);
        Unpark(x);
        QuietThen(w0, {parked_}, [Woke(x)], w1, log[n + 1..], w);
        assert [Woke(x)] + log[n + 1..] == log[n..];
      }
    }

    /** One turn of the loop of unparkAll(). */
    method UnparkFront(local: Item) returns (x: Item)
      requires Valid() && local in w.lists && local != parked_ && w.lists[local] != []
      modifies this, w.items`next_, w.items`prev_
      ensures Valid() && level == old(level) && fuel <= old(fuel) && x == old(w).lists[local][0] && x in old(w).owner
      ensures old(log) + [Woke(x)] <= log && parked_ in old(w).lists && Separate(old(w))
      ensures Quiet(Unlinked(old(w), x), {parked_}, log[|old(log)| + 1..], w)
      ensures Recorded(old(wakes), wakes, level, [x])
      ensures old(w).lists[local] == [x] + old(w).lists[local][1..]
      ensures fuel == old(fuel) ==>
                && log == old(log) + [Woke(x)] && local in w.lists && parked_ in w.lists
                && w.lists[local] == old(w).lists[local][1..] && w.lists[parked_] == old(w).lists[parked_]
      decreases fuel, 2
    {
      hide Separate, Consistent, Unlinked, Ring, Loose, Quiet, Recorded;
      x := local.Front(w);
      assert Separate(w) by { OwnerFacts(w, x); }
      FrontUnlinked(w, local, parked_);
      Unpark(x);
    }

    /** The loop of unparkAll(), over the list that it has moved the awaiters to. */
    method UnparkMoved(local: Item) returns (mine: seq<Item>, ghost k: nat)
      requires Valid() && local in w.lists && local != parked_
      modifies this, w.items`next_, w.items`prev_
      ensures Valid() && local in w.lists && w.items == old(w).items && old(log) <= log
      ensures level == old(level) && fuel <= old(fuel) && Recorded(old(wakes), wakes, level, mine)
      ensures var q, seg := old(w).lists[local], log[|old(log)|..];
              && Quiet(old(w), {parked_, local}, seg, w) && Untouched(q, seg) == []
              && WokenUpTo(q, k, seg) && mine == WokenInTime(q, seg)
      ensures var q := old(w).lists[local];
              fuel == old(fuel) ==> mine == q && log == old(log) + Wokes(q) && parked_ in w.lists && w.lists[parked_] == old(w).lists[parked_]
      decreases fuel, 3
    {
      hide Separate, Consistent, Unlinked, Ring, Loose, Quiet, WokenUpTo, First, Untouched, WokenInTime, Recorded, Wokes;
      ghost var n, w1, q := |log|, w, w.lists[local];
      ghost var seg: seq<Event> := [];
      k, mine := 0, [];
      StartWaking(q);
      NothingRecorded(wakes, level);
      assert seg == Wokes(mine) by { NoWokes(); }
      assert Distinct(q) by { ListFacts(w, local); }
      hide Distinct;
      QuietNothing(w, {parked_, local});
      var empty := local.Empty(w);
      while !empty
        invariant Valid() && local in w.lists && w.items == w1.items && log == old(log) + seg
        invariant Quiet(w1, {parked_, local}, seg, w) && w.lists[local] == Untouched(q, seg)
        invariant WokenUpTo(q, k, seg) && mine == WokenInTime(q, seg)
        invariant empty <==> w.lists[local] == []
        invariant level == old(level) && fuel <= old(fuel) && Recorded(old(wakes), wakes, level, mine)
        invariant parked_ in w.lists
        invariant fuel == old(fuel) ==> seg == Wokes(mine) && q == mine + w.lists[local] && w.lists[parked_] == w1.lists[parked_]
        decreases |w.lists[local]|
      {
        ghost var w2, n2, wakes2 := w, |log|, wakes;
        var x := UnparkFront(local);
        RecordedThen(old(wakes), wakes2, wakes, level, mine, [x]);
        MoreWokes(mine, x);
        mine := mine + [x];
        ghost var e := log[n2 + 1..];
        assert fuel == old(fuel) ==> e == [];
        k := OneTurn(w1, parked_, local, q, k, seg, w2, e, w);
        seg := seg + [Woke(x)] + e;
        empty := local.Empty(w);
      }
      assert log[n..] == seg;
    }

    /** Wakes, in order, exactly those awaiters that are parked when it begins and do not leave before
        their turn; `mine` are the ones it wakes itself. */
    method UnparkAll() returns (mine: seq<Item>)
      requires Valid()
      modifies this, w.items`next_, w.items`prev_
      ensures Valid() && old(log) <= log && Quiet(old(w), {parked_}, log[|old(log)|..], w)
      ensures level == old(level) && fuel <= old(fuel) && Recorded(old(wakes), wakes, level, mine)
      ensures var q, seg := old(w).lists[parked_], log[|old(log)|..];
              && (forall i :: 0 <= i < |q| ==> WokenOrLeft(seg, q[i]))
              && mine == WokenInQueue(q, seg) == WokenInTime(q, seg)
      ensures var q := old(w).lists[parked_]; fuel == old(fuel) ==> mine == q && log == old(log) + Wokes(q) && w.lists[parked_] == []
      decreases fuel, 4
    {
      hide Separate, Consistent, Unlinked, Moved, Disposed, Ring, Loose, Quiet, WokenUpTo, WokenOrLeft, Recorded, Wokes;
      ghost var n, w0, q := |log|, w, w.lists[parked_];
      ListFacts(w, parked_);
      var local := new Item.Move(parked_, w);
      w := Moved(w, parked_, local);
      ghost var w1 := w;
      MovedFacts(w0, parked_, local);
      ghost var k;
      mine, k := UnparkMoved(local);
      ghost var seg := log[n..];
      AllWoken(q, k, seg);
      ListFacts(w, local);
      MovedAndDisposed(w0, parked_, local, seg, w);
      local.Dispose(w);
      w := Disposed(w, local);
      assert parked_ in w.lists by { QuietKeepsItems(w0, {parked_}, seg, w); }
    }
  }
}
