/**
 Channels: a buffer between senders and receivers, with claims.  An awaiter that finds an element
 (or free space) when it is constructed, suspended or woken claims it; claimed elements and space
 are withheld from everybody else until the claimant transfers or is destroyed.

 Awaiters are numbered.  Waking one resumes its task's handle.  If no executor is running, that task
 and others run there and then, and use the channel before the loop that woke it goes on.  How often
 they do so in all is bounded by `fuel`, which is arbitrary; an operation during which none is spent
 is described exactly, as a function of the state.
 */
module Channels {
  import opened Options
  import opened Collections
  import opened RingQueue

  /** How many claims there may be: unlimited for senders on an unbounded channel. */
  datatype Limit = Unlimited | Upto(n: nat)

  /** One direction of a channel: its claims and its wait queue. */
  datatype HalfState = HalfState(
    claims: nat,
    parked: seq<nat>,   // awaiters in the wait queue, oldest first
    leaving: seq<nat>,  // awaiters that unparkAll() has moved out of it, and is about to wake
    claimed: set<nat>,  // awaiters whose claim bit is set
    live: set<nat>,     // awaiters that have been constructed and not destroyed
    woken: seq<nat>)    // awaiters whose handle has been resumed, in that order
  {
    predicate Unclaimed(limit: Limit) {
      limit.Unlimited? || claims < limit.n
    }

    predicate Waits(id: nat) {
      id in parked || id in leaving
    }
  }

  datatype State<T> = State(
    bounded: bool,
    maxSize: nat,
    contents: seq<T>,
    r: HalfState,     // receivers; a claim is on an element
    w: HalfState,     // senders; a claim is on a free slot
    closed: bool,
    sent: seq<T>,
    received: seq<T>,
    // what is under way
    fuel: nat,        // what woken tasks may still do before the loops that woke them go on
    wakingR: bool,    // a loop that wakes receivers
    wakingW: bool,    // a loop that wakes senders
    closing: bool)    // a close()
  {
    function ReadLimit(): Limit {
      Upto(|contents|)
    }

    function WriteLimit(): Limit {
      if closed then Upto(0) else if !bounded then Unlimited
      else Upto(if |contents| <= maxSize then maxSize - |contents| else 0)
    }
  }

  // ----- the invariant

  /** Claims and claim bits agree, except that `due` bits have been cleared ahead of the count. */
  ghost predicate Owing(h: HalfState, due: nat) {
    match h
    case HalfState(claims, parked, leaving, claimed, live, _) =>
      && claims == |claimed| + due && claimed <= live
      && Distinct(parked) && Distinct(leaving) && (leaving != [] ==> parked == [])
      && (forall id :: id in parked ==> id in live && id !in claimed)
      && (forall id :: id in leaving ==> id in live && id !in claimed)
  }

  /** Claims are covered: every claimed element is in the buffer, and every claimed slot is free. */
  predicate Covered<T>(s: State<T>) {
    match s.r
    case HalfState(claims, _, _, _, _, _) =>
      && claims <= |s.contents|
      && (s.bounded ==> s.maxSize > 0 && s.w.claims + |s.contents| <= s.maxSize)
  }

  /** Nobody waits for what is there: a parked receiver means no unclaimed element, a parked sender no
      unclaimed space, and on a closed channel nobody is parked; except in the loops that see to it. */
  predicate NobodyOverlooked<T>(s: State<T>) {
    match s.r
    case HalfState(_, _, _, _, _, _) =>
      && (s.r.parked != [] ==> !s.closed && (s.wakingR || !s.r.Unclaimed(s.ReadLimit())))
      && (s.w.parked != [] ==> (!s.closed || s.closing) && (s.wakingW || !s.w.Unclaimed(s.WriteLimit())))
      && (s.r.leaving != [] || s.w.leaving != [] ==> s.closing && s.closed)
      && (s.closing ==> s.closed)
  }

  /** Everything sent has been received, in order, up to what is in the buffer.  Claim bits may have
      been cleared ahead of the counts, by awaiters about to transfer. */
  ghost predicate Settling<T>(s: State<T>, dueR: nat, dueW: nat) {
    match s.r
    case HalfState(_, _, _, _, _, _) =>
      Owing(s.r, dueR) && Owing(s.w, dueW) && Covered(s) && NobodyOverlooked(s) && s.sent == s.received + s.contents
  }

  ghost predicate Fine<T>(s: State<T>) {
    match s.r
    case HalfState(_, _, _, _, _, _) => Settling(s, 0, 0)
  }

  /** What is so whatever woken tasks do meanwhile. */
  ghost predicate Onward<T>(s: State<T>, s': State<T>) {
    match s.r
    case HalfState(_, _, _, _, _, _) =>
      && s'.bounded == s.bounded && s'.maxSize == s.maxSize
      && s.sent <= s'.sent && s.received <= s'.received && (s.closed ==> s'.closed) && s'.closing == s.closing
      && s'.fuel <= s.fuel && s.r.woken <= s'.r.woken && s.w.woken <= s'.w.woken
  }

  /** What a call leaves to the loops that are under way: they have not lost or gained anything to do that
      is not seen to. */
  predicate SameLoops<T>(s: State<T>, s': State<T>) {
    && s'.wakingR == s.wakingR && s'.wakingW == s.wakingW
    && (s.r.leaving == [] ==> s'.r.leaving == []) && (s.w.leaving == [] ==> s'.w.leaving == [])
    && (s.closed && s.w.parked == [] ==> s'.w.parked == [])
  }

  ghost predicate Steady<T>(s: State<T>, s': State<T>) {
    match s.r
    case HalfState(_, _, _, _, _, _) => Onward(s, s') && SameLoops(s, s')
  }

  lemma SteadyTrans<T>(s0: State<T>, s1: State<T>, s2: State<T>)
    requires Steady(s0, s1) && Steady(s1, s2)
    ensures Steady(s0, s2)
  {}

  lemma SteadySelf<T>(s: State<T>)
    ensures Steady(s, s)
  {}

  lemma SteadyFlags<T>(s: State<T>, s': State<T>, was: bool)
    requires Steady(s, s')
    ensures Steady(s.(wakingR := was), s'.(wakingR := was)) && Steady(s.(wakingW := was), s'.(wakingW := was))
  {}

  lemma SteadyFacts<T>(s: State<T>, s': State<T>)
    requires Steady(s, s')
    ensures Onward(s, s') && SameLoops(s, s') && s'.fuel <= s.fuel
  {}

  // ----- one half, on values

  function Claim(h: HalfState, id: nat): HalfState {
    h.(claimed := h.claimed + {id}, claims := h.claims + 1)
  }

  lemma ClaimOwes(h: HalfState, id: nat)
    requires Owing(h, 0) && id in h.live && id !in h.claimed && !h.Waits(id)
    ensures Owing(Claim(h, id), 0)
  {
    assert |h.claimed + {id}| == |h.claimed| + 1;
    hide Distinct;
  }

  /** The awaiter parked for longest claims, leaves the queue and has its handle resumed. */
  function WokenOne(h: HalfState): HalfState
    requires h.parked != []
  {
    Claim(h.(parked := h.parked[1..], woken := h.woken + [h.parked[0]]), h.parked[0])
  }

  lemma WakeOwes(h: HalfState)
    requires Owing(h, 0) && h.parked != []
    ensures Owing(WokenOne(h), 0) && h.parked[0] in WokenOne(h).claimed
  {
    var id, rest := h.parked[0], h.parked[1..];
    assert h.parked == [id] + rest && Distinct(rest) && id !in rest;
    assert |h.claimed + {id}| == |h.claimed| + 1;
    hide Distinct;
  }

  /** wakeAwaiters(), if nobody interferes. */
  function WokenAll(h: HalfState, limit: Limit): HalfState
    decreases |h.parked|
  {
    if h.Unclaimed(limit) && h.parked != [] then WokenAll(WokenOne(h), limit) else h
  }

  /** How many that wakes. */
  function Wakes(h: HalfState, limit: Limit): nat {
    if limit.Unlimited? then |h.parked| else if limit.n <= h.claims then 0 else Min(limit.n - h.claims, |h.parked|)
  }

  /** It wakes those parked for longest, in order, as many as there is unclaimed supply. */
  lemma {:induction false} WokenInOrder(h: HalfState, limit: Limit)
    ensures var k, h' := Wakes(h, limit), WokenAll(h, limit);
            && h'.parked == h.parked[k..] && h'.woken == h.woken + h.parked[..k] && h'.claims == h.claims + k
            && h'.claimed == h.claimed + Members(h.parked[..k])
            && h'.live == h.live && h'.leaving == h.leaving
            && !(h'.Unclaimed(limit) && h'.parked != [])
    decreases |h.parked|
  {
    if h.Unclaimed(limit) && h.parked != [] {
      WokenInOrder(WokenOne(h), limit);
      assert Wakes(WokenOne(h), limit) == Wakes(h, limit) - 1;
      FirstOfMany(h.parked, Wakes(h, limit));
      hide WokenAll, Members;
    } else {
      assert h.parked[..0] == [] && h.parked[0..] == h.parked && Members([]) == {};
    }
  }

  function Members(xs: seq<nat>): set<nat> {
    set id | id in xs
  }

  lemma FirstOfMany(xs: seq<nat>, k: nat)
    requires 0 < k <= |xs|
    ensures xs[..k] == [xs[0]] + xs[1..][..k - 1] && xs[k..] == xs[1..][k - 1..]
    ensures Members(xs[..k]) == {xs[0]} + Members(xs[1..][..k - 1])
  {
    assert xs[..k] == [xs[0]] + xs[1..][..k - 1];
  }

  lemma {:induction false} WokenAllOwes(h: HalfState, limit: Limit)
    requires Owing(h, 0)
    ensures Owing(WokenAll(h, limit), 0)
    decreases |h.parked|
  {
    hide Owing;
    if h.Unclaimed(limit) && h.parked != [] {
      WakeOwes(h);
      WokenAllOwes(WokenOne(h), limit);
    }
  }

  /** An awaiter leaves the queue it waits in, if it waits. */
  function Unlinked(h: HalfState, id: nat): HalfState {
    h.(parked := Without(h.parked, id), leaving := Without(h.leaving, id))
  }

  lemma UnlinkOwes(h: HalfState, id: nat, due: nat)
    requires Owing(h, due)
    ensures Owing(Unlinked(h, id), due) && !Unlinked(h, id).Waits(id)
    ensures Unlinked(h, id).parked != [] ==> h.parked != []
    ensures Unlinked(h, id).leaving != [] ==> h.leaving != []
    ensures !h.Waits(id) ==> Unlinked(h, id) == h
  {
    WithoutMembers(h.parked, id);
    WithoutMembers(h.leaving, id);
    assert Without<nat>([], id) == [];
    hide Distinct, Without;
  }

  /** An awaiter is destroyed: it leaves the queue, and gives up its claim. */
  function Dropped(h: HalfState, id: nat): HalfState {
    var h1 := Unlinked(h, id);
    h1.(live := h.live - {id}, claimed := h.claimed - {id},
        claims := if id in h.claimed && h.claims > 0 then h.claims - 1 else h.claims)
  }

  lemma DropOwes(h: HalfState, id: nat)
    requires Owing(h, 0)
    ensures Owing(Dropped(h, id), 0) && Dropped(h, id).claims == h.claims - if id in h.claimed then 1 else 0
    ensures Dropped(h, id).parked != [] ==> h.parked != []
    ensures Dropped(h, id).leaving != [] ==> h.leaving != []
    ensures id in h.claimed ==> Dropped(h, id).parked == h.parked
  {
    UnlinkOwes(h, id, 0);
    var h1 := Unlinked(h, id);
    assert id in h.claimed ==> |h.claimed - {id}| == |h.claimed| - 1;
    assert id !in h.claimed ==> h.claimed - {id} == h.claimed;
    hide Distinct, Unlinked;
  }

  /** An awaiter's claim bit is cleared; how many claims that leaves to be settled. */
  function Due(h: HalfState, id: nat): nat {
    if id in h.claimed then 1 else 0
  }

  function Cleared(h: HalfState, id: nat): HalfState {
    h.(claimed := h.claimed - {id})
  }

  lemma ClearOwes(h: HalfState, id: nat)
    requires Owing(h, 0)
    ensures Owing(Cleared(h, id), Due(h, id))
  {
    assert id in h.claimed ==> |h.claimed - {id}| == |h.claimed| - 1;
    assert id !in h.claimed ==> h.claimed - {id} == h.claimed;
    hide Distinct;
  }

  lemma ParkOwes(h: HalfState, id: nat)
    requires Owing(h, 0) && id in h.live && id !in h.claimed && !h.Waits(id) && h.leaving == []
    ensures Owing(h.(parked := h.parked + [id]), 0)
  {
    assert Distinct(h.parked + [id]);
    hide Distinct;
  }

  /** unparkAll() moves everybody who is parked into a list of its own... */
  function MovedOut(h: HalfState): HalfState {
    if h.parked == [] then h else h.(parked := [], leaving := h.parked)
  }

  /** ...and resumes their handles, first to last. */
  function WokenLeaving(h: HalfState): HalfState
    requires h.leaving != []
  {
    h.(leaving := h.leaving[1..], woken := h.woken + [h.leaving[0]])
  }

  lemma LeaveOwes(h: HalfState)
    requires Owing(h, 0)
    ensures h.leaving == [] || h.parked == [] ==> Owing(MovedOut(h), 0)
    ensures h.leaving != [] ==> Owing(WokenLeaving(h), 0)
  {
    if h.leaving != [] {
      assert h.leaving == [h.leaving[0]] + h.leaving[1..] && Distinct(h.leaving[1..]);
    }
    hide Distinct;
  }

  // ----- the channel, on values

  function ReceiversWoken<T>(s: State<T>): State<T> {
    s.(r := WokenAll(s.r, s.ReadLimit()))
  }

  function SendersWoken<T>(s: State<T>): State<T> {
    s.(w := WokenAll(s.w, s.WriteLimit()))
  }

  lemma SetR<T>(s: State<T>, h: HalfState)
    requires Fine(s) && Owing(h, 0) && h.claims <= |s.contents| && s.r.woken <= h.woken
    requires h.parked != [] ==> !s.closed && (s.wakingR || !h.Unclaimed(s.ReadLimit()))
    requires s.r.leaving == [] ==> h.leaving == []
    ensures Fine(s.(r := h)) && Steady(s, s.(r := h))
  {
    hide Owing;
  }

  lemma SetW<T>(s: State<T>, h: HalfState)
    requires Fine(s) && Owing(h, 0) && (s.bounded ==> h.claims + |s.contents| <= s.maxSize) && s.w.woken <= h.woken
    requires h.parked != [] ==> (!s.closed || s.closing) && (s.wakingW || !h.Unclaimed(s.WriteLimit()))
    requires (s.w.leaving == [] ==> h.leaving == []) && (s.closed && s.w.parked == [] ==> h.parked == [])
    ensures Fine(s.(w := h)) && Steady(s, s.(w := h))
  {
    hide Owing;
  }

  /** What a fine state says of its receivers and senders. */
  lemma FineFacts<T>(s: State<T>)
    requires Fine(s)
    ensures Owing(s.r, 0) && Owing(s.w, 0) && s.r.claims <= |s.contents|
    ensures s.bounded ==> s.w.claims + |s.contents| <= s.maxSize
    ensures s.r.parked != [] ==> !s.closed && (s.wakingR || !s.r.Unclaimed(s.ReadLimit()))
    ensures s.w.parked != [] ==> (!s.closed || s.closing) && (s.wakingW || !s.w.Unclaimed(s.WriteLimit()))
    ensures s.r.leaving != [] || s.w.leaving != [] ==> s.closing && s.closed
    ensures s.sent == s.received + s.contents
  {}

  /** One turn of the loop that wakes receivers. */
  lemma WakeReceiverFine<T>(s: State<T>)
    requires Fine(s) && s.wakingR && s.r.parked != [] && s.r.Unclaimed(s.ReadLimit())
    ensures var s' := s.(r := WokenOne(s.r)); Fine(s') && Steady(s, s') && ReceiversWoken(s') == ReceiversWoken(s)
  {
    FineFacts(s);
    WakeOwes(s.r);
    hide Owing, Fine, Steady;
    SetR(s, WokenOne(s.r));
  }

  lemma WakeSenderFine<T>(s: State<T>)
    requires Fine(s) && s.wakingW && s.w.parked != [] && s.w.Unclaimed(s.WriteLimit())
    ensures var s' := s.(w := WokenOne(s.w)); Fine(s') && Steady(s, s') && SendersWoken(s') == SendersWoken(s)
  {
    FineFacts(s);
    WakeOwes(s.w);
    hide Owing, Fine, Steady;
    SetW(s, WokenOne(s.w));
  }

  /** The loops end with nobody overlooked. */
  lemma WakingOver<T>(s: State<T>, was: bool)
    requires Fine(s)
    ensures !(s.r.Unclaimed(s.ReadLimit()) && s.r.parked != []) ==> Fine(s.(wakingR := was)) && ReceiversWoken(s) == s
    ensures !(s.w.Unclaimed(s.WriteLimit()) && s.w.parked != []) ==> Fine(s.(wakingW := was)) && SendersWoken(s) == s
    ensures Fine(s.(wakingR := true)) && Fine(s.(wakingW := true))
  {
    hide Owing;
  }

  // ----- transfers, on values

  /** n elements are taken out of the buffer, one of them perhaps on a claim. */
  function TakenOut<T>(s: State<T>, n: nat, due: nat): State<T>
    requires n <= |s.contents|
  {
    s.(contents := s.contents[n..], received := s.received + s.contents[..n],
       r := s.r.(claims := if due <= s.r.claims then s.r.claims - due else 0))
  }

  lemma TakeFine<T>(s: State<T>, n: nat, due: nat)
    requires Settling(s, due, 0) && due <= 1 && 0 < n <= due + (|s.contents| - s.r.claims)
    ensures s.r.claims <= |s.contents| && n <= |s.contents| && due <= s.r.claims
    ensures Fine(TakenOut(s, n, due).(wakingW := true)) && Steady(s, TakenOut(s, n, due))
  {
    assert Owing(TakenOut(s, n, due).r, 0);
    hide Owing;
    assert s.contents == s.contents[..n] + s.contents[n..];
  }

  /** How many elements a transfer takes at most. */
  function Available<T>(s: State<T>, due: nat): int {
    due + (|s.contents| - s.r.claims)
  }

  lemma SettlingFacts<T>(s: State<T>, dueR: nat, dueW: nat)
    requires Settling(s, dueR, dueW)
    ensures s.r.claims <= |s.contents| && dueR <= s.r.claims && dueW <= s.w.claims
    ensures s.bounded ==> s.w.claims + |s.contents| <= s.maxSize
    ensures dueR == 0 && dueW == 0 ==> Fine(s)
  {}

  /** Elements are put into the buffer, one of them perhaps on a claim. */
  function PutIn<T>(s: State<T>, xs: seq<T>, due: nat): State<T> {
    s.(contents := s.contents + xs, sent := s.sent + xs, w := s.w.(claims := if due <= s.w.claims then s.w.claims - due else 0))
  }

  lemma PutFine<T>(s: State<T>, xs: seq<T>, due: nat)
    requires Settling(s, 0, due) && due <= 1 && xs != [] && !s.closed
    requires s.bounded ==> |xs| <= due + (s.maxSize - |s.contents| - s.w.claims)
    ensures Fine(PutIn(s, xs, due).(wakingR := true)) && Steady(s, PutIn(s, xs, due))
  {
    assert Owing(PutIn(s, xs, due).w, 0);
    hide Owing;
    assert s.sent + xs == s.received + (s.contents + xs);
  }

  /** How many elements a transfer puts in at most. */
  function Room<T>(s: State<T>, due: nat): Limit {
    if !s.bounded then Unlimited
    else Upto(due + if s.w.Unclaimed(s.WriteLimit()) then s.WriteLimit().n - s.w.claims else 0)
  }

  /** An assertion of tryTransfer() fails exactly if the transfer gets past the test for room on a closed
      channel. */
  predicate SendAsserts<T>(s: State<T>, due: nat, bulk: bool) {
    s.closed && (due > 0 || (bulk && !s.bounded))
  }

  lemma ClearRFine<T>(s: State<T>, id: nat)
    requires Fine(s)
    ensures Settling(s.(r := Cleared(s.r, id)), Due(s.r, id), 0)
  {
    ClearOwes(s.r, id);
    hide Owing;
  }

  lemma ClearWFine<T>(s: State<T>, id: nat)
    requires Fine(s)
    ensures Settling(s.(w := Cleared(s.w, id)), 0, Due(s.w, id))
  {
    ClearOwes(s.w, id);
    hide Owing;
  }

  // ----- the life of an awaiter, on values

  function NewReceived<T>(s: State<T>, id: nat, noop: bool): State<T> {
    var r := s.r.(live := s.r.live + {id});
    s.(r := if r.Unclaimed(s.ReadLimit()) && !noop then Claim(r, id) else r)
  }

  function NewSent<T>(s: State<T>, id: nat, noop: bool): State<T> {
    var w := s.w.(live := s.w.live + {id});
    s.(w := if w.Unclaimed(s.WriteLimit()) && !noop then Claim(w, id) else w)
  }

  lemma NewOwes(h: HalfState, id: nat)
    requires Owing(h, 0) && id !in h.live
    ensures Owing(h.(live := h.live + {id}), 0) && Owing(Claim(h.(live := h.live + {id}), id), 0)
  {
    assert id !in h.claimed && !h.Waits(id);
    assert Owing(h.(live := h.live + {id}), 0);
    ClaimOwes(h.(live := h.live + {id}), id);
  }

  lemma NewReceiverFine<T>(s: State<T>, id: nat, noop: bool)
    requires Fine(s) && id !in s.r.live
    ensures Fine(NewReceived(s, id, noop)) && Steady(s, NewReceived(s, id, noop))
  {
    FineFacts(s);
    NewOwes(s.r, id);
    hide Owing, Fine, Steady;
    SetR(s, NewReceived(s, id, noop).r);
  }

  lemma NewSenderFine<T>(s: State<T>, id: nat, noop: bool)
    requires Fine(s) && id !in s.w.live
    ensures Fine(NewSent(s, id, noop)) && Steady(s, NewSent(s, id, noop))
  {
    FineFacts(s);
    NewOwes(s.w, id);
    hide Owing, Fine, Steady;
    SetW(s, NewSent(s, id, noop).w);
  }

  function ReceiverSuspended<T>(s: State<T>, id: nat): State<T> {
    s.(r := if s.r.Unclaimed(s.ReadLimit()) then Claim(s.r, id) else s.r.(parked := s.r.parked + [id]))
  }

  function SenderSuspended<T>(s: State<T>, id: nat): State<T> {
    s.(w := if s.w.Unclaimed(s.WriteLimit()) then Claim(s.w, id) else s.w.(parked := s.w.parked + [id]))
  }

  lemma SuspendReceiverFine<T>(s: State<T>, id: nat)
    requires Fine(s) && !s.closed && id in s.r.live && id !in s.r.claimed && !s.r.Waits(id)
    ensures Fine(ReceiverSuspended(s, id)) && Steady(s, ReceiverSuspended(s, id))
  {
    FineFacts(s);
    ClaimOwes(s.r, id);
    ParkOwes(s.r, id);
    hide Owing, Fine, Steady;
    SetR(s, ReceiverSuspended(s, id).r);
  }

  lemma SuspendSenderFine<T>(s: State<T>, id: nat)
    requires Fine(s) && !s.closed && id in s.w.live && id !in s.w.claimed && !s.w.Waits(id)
    ensures Fine(SenderSuspended(s, id)) && Steady(s, SenderSuspended(s, id))
  {
    FineFacts(s);
    ClaimOwes(s.w, id);
    ParkOwes(s.w, id);
    hide Owing, Fine, Steady;
    SetW(s, SenderSuspended(s, id).w);
  }

  lemma CancelReceiverFine<T>(s: State<T>, id: nat)
    requires Fine(s)
    ensures Fine(s.(r := Unlinked(s.r, id))) && Steady(s, s.(r := Unlinked(s.r, id)))
  {
    FineFacts(s);
    UnlinkOwes(s.r, id, 0);
    hide Owing, Fine, Steady, Without;
    SetR(s, Unlinked(s.r, id));
  }

  lemma CancelSenderFine<T>(s: State<T>, id: nat)
    requires Fine(s)
    ensures Fine(s.(w := Unlinked(s.w, id))) && Steady(s, s.(w := Unlinked(s.w, id)))
  {
    FineFacts(s);
    UnlinkOwes(s.w, id, 0);
    hide Owing, Fine, Steady, Without;
    SetW(s, Unlinked(s.w, id));
  }

  lemma DropReceiverFine<T>(s: State<T>, id: nat)
    requires Fine(s) && (s.wakingR || id !in s.r.claimed)
    ensures Fine(s.(r := Dropped(s.r, id))) && Steady(s, s.(r := Dropped(s.r, id)))
  {
    FineFacts(s);
    DropOwes(s.r, id);
    assert Dropped(s.r, id).woken == s.r.woken;
    hide Owing, Fine, Steady, Dropped;
    SetR(s, Dropped(s.r, id));
  }

  lemma DropSenderFine<T>(s: State<T>, id: nat)
    requires Fine(s) && (s.wakingW || id !in s.w.claimed)
    ensures Fine(s.(w := Dropped(s.w, id))) && Steady(s, s.(w := Dropped(s.w, id)))
  {
    FineFacts(s);
    DropOwes(s.w, id);
    assert Dropped(s.w, id).woken == s.w.woken;
    hide Owing, Fine, Steady, Dropped;
    SetW(s, Dropped(s.w, id));
  }

  /** What becomes of a half when an awaiter is destroyed: a claim that it gives up when there is no unclaimed
      supply goes to the one parked for longest. */
  ghost predicate PassedOn(h: HalfState, h': HalfState, id: nat, scarce: bool) {
    match h
    case HalfState(_, parked, _, claimed, live, woken) =>
      && h'.live == live - {id}
      && (id !in claimed ==> h'.parked == Without(parked, id) && h'.claimed == claimed && h'.woken == woken)
      && (id in claimed && scarce ==>
            var k := Min(1, |parked|);
            h'.woken == woken + parked[..k] && h'.parked == parked[k..] && h'.claimed == claimed - {id} + Members(parked[..k]))
  }

  lemma ClaimPassesOn(h: HalfState, limit: Limit, id: nat)
    requires Owing(h, 0) && id in h.claimed
    ensures PassedOn(h, WokenAll(Dropped(h, id), limit), id, h.parked != [] ==> limit == Upto(h.claims))
  {
    DropOwes(h, id);
    DroppedFields(h, id);
    ClaimedCounts(h, id);
    hide Owing, WokenAll, Members, Dropped;
    WokenInOrder(Dropped(h, id), limit);
    if h.parked != [] ==> limit == Upto(h.claims) {
      assert Wakes(Dropped(h, id), limit) == Min(1, |h.parked|);
    }
  }

  lemma NoClaimToPassOn(h: HalfState, id: nat)
    requires id !in h.claimed
    ensures forall scarce :: PassedOn(h, Dropped(h, id), id, scarce)
  {
    DroppedFields(h, id);
    assert h.claimed - {id} == h.claimed;
    hide Dropped, Without, Members;
  }

  lemma DroppedFields(h: HalfState, id: nat)
    ensures var h' := Dropped(h, id);
            h'.woken == h.woken && h'.live == h.live - {id} && h'.claimed == h.claimed - {id} && h'.parked == Without(h.parked, id)
  {}

  lemma DestroyedReceiver<T>(s: State<T>, id: nat)
    requires Fine(s)
    ensures var s1 := s.(r := Dropped(s.r, id)); PassedOn(s.r, (if id in s.r.claimed then ReceiversWoken(s1) else s1).r, id, !s.wakingR)
  {
    FineFacts(s);
    hide Fine, PassedOn, WokenAll, Dropped;
    if id in s.r.claimed { ClaimPassesOn(s.r, Upto(|s.contents|), id); } else { NoClaimToPassOn(s.r, id); }
    PassedOnLess(s.r, WokenAll(Dropped(s.r, id), Upto(|s.contents|)), id, s.r.parked != [] ==> Upto(|s.contents|) == Upto(s.r.claims), !s.wakingR);
  }

  lemma DestroyedSender<T>(s: State<T>, id: nat)
    requires Fine(s)
    ensures var s1 := s.(w := Dropped(s.w, id));
            PassedOn(s.w, (if id in s.w.claimed then SendersWoken(s1) else s1).w, id, !s.wakingW && !s.closed)
  {
    FineFacts(s);
    NoRoomLeft(s);
    var limit := s.WriteLimit();
    hide Fine, PassedOn, WokenAll, Dropped;
    if id in s.w.claimed { ClaimPassesOn(s.w, limit, id); } else { NoClaimToPassOn(s.w, id); }
    PassedOnLess(s.w, WokenAll(Dropped(s.w, id), limit), id, s.w.parked != [] ==> limit == Upto(s.w.claims), !s.wakingW && !s.closed);
  }

  lemma PassedOnLess(h: HalfState, h': HalfState, id: nat, scarce: bool, scarce': bool)
    requires scarce' ==> scarce
    ensures PassedOn(h, h', id, scarce) ==> PassedOn(h, h', id, scarce')
  {}

  lemma NoRoomLeft<T>(s: State<T>)
    requires Fine(s)
    ensures s.w.parked != [] && !s.wakingW && !s.closed ==> s.WriteLimit() == Upto(s.w.claims)
  {}

  // ----- closing, on values

  /** close() has set the flag and moved the receivers out. */
  lemma CloseBegins<T>(s: State<T>)
    requires Fine(s)
    ensures Fine(Shut(s)) && Shut(s).r.parked == []
  {
    LeaveOwes(s.r);
    assert s.r.parked != [] ==> s.r.leaving == [];
    hide Owing;
  }

  lemma MoveSendersFine<T>(s: State<T>)
    requires Fine(s) && s.closing
    ensures var s' := s.(w := MovedOut(s.w)); Fine(s') && s'.w.parked == [] && Onward(s, s')
  {
    LeaveOwes(s.w);
    assert s.w.parked != [] ==> s.w.leaving == [];
    hide Owing;
  }

  lemma LeaveReceiverFine<T>(s: State<T>)
    requires Fine(s) && s.r.leaving != []
    ensures Fine(s.(r := WokenLeaving(s.r))) && Steady(s, s.(r := WokenLeaving(s.r)))
  {
    FineFacts(s);
    LeaveOwes(s.r);
    hide Owing, Fine, Steady;
    SetR(s, WokenLeaving(s.r));
  }

  lemma LeaveSenderFine<T>(s: State<T>)
    requires Fine(s) && s.w.leaving != []
    ensures Fine(s.(w := WokenLeaving(s.w))) && Steady(s, s.(w := WokenLeaving(s.w)))
  {
    FineFacts(s);
    LeaveOwes(s.w);
    hide Owing, Fine, Steady;
    SetW(s, WokenLeaving(s.w));
  }

  lemma CloseEnds<T>(s: State<T>, was: bool)
    requires Fine(s) && s.closed && (!was ==> s.r.leaving == [] && s.w.leaving == [] && s.w.parked == [])
    ensures s.closing ==> Fine(s.(closing := was))
  {}

  // ----- the classes

  class Half {
    var claims: nat
    var parked: seq<nat>
    var leaving: seq<nat>
    var claimed: set<nat>
    var live: set<nat>
    var woken: seq<nat>

    function Now(): HalfState
      reads this
    {
      HalfState(claims, parked, leaving, claimed, live, woken)
    }

    constructor ()
      ensures Now() == HalfState(0, [], [], {}, {}, [])
    {
      claims, parked, leaving, claimed, live, woken := 0, [], [], {}, {}, [];
    }

    method DoClaim(id: nat)
      modifies this`claims, this`claimed
      ensures Now() == Claim(old(Now()), id)
    {
      claimed := claimed + {id};
      claims := claims + 1;
    }

    method WakeOne()
      requires parked != []
      modifies this`parked, this`woken, this`claims, this`claimed
      ensures Now() == WokenOne(old(Now()))
    {
      var id := parked[0];
      parked := parked[1..];
      woken := woken + [id];
      DoClaim(id);
    }

    method ClearBits(id: nat) returns (claimedCount: nat)
      modifies this`claimed
      ensures Now() == Cleared(old(Now()), id) && claimedCount == Due(old(Now()), id)
    {
      claimedCount := if id in claimed then 1 else 0;
      claimed := claimed - {id};
    }

    method Settle(claimedCount: nat)
      requires claimedCount <= claims
      modifies this`claims
      ensures Now() == old(Now()).(claims := old(claims) - claimedCount)
    {
      claims := claims - claimedCount;
    }

    method Park(id: nat)
      modifies this`parked
      ensures Now() == old(Now()).(parked := old(parked) + [id])
    {
      parked := parked + [id];
    }

    method Unlink(id: nat)
      modifies this`parked, this`leaving
      ensures Now() == Unlinked(old(Now()), id)
    {
      parked, leaving := Without(parked, id), Without(leaving, id);
    }

    method Construct(id: nat)
      modifies this`live
      ensures Now() == old(Now()).(live := old(live) + {id})
    {
      live := live + {id};
    }

    method Drop(id: nat)
      requires id in claimed ==> claims > 0
      modifies this`parked, this`leaving, this`live, this`claimed, this`claims
      ensures Now() == Dropped(old(Now()), id)
    {
      Unlink(id);
      live := live - {id};
      if id in claimed {
        claimed := claimed - {id};
        claims := claims - 1;
      } else {
        assert claimed - {id} == claimed;
      }
    }

    method MoveOut()
      modifies this`parked, this`leaving
      ensures Now() == MovedOut(old(Now()))
    {
      if parked != [] {
        parked, leaving := [], parked;
      }
    }

    method WakeLeaving()
      requires leaving != []
      modifies this`leaving, this`woken
      ensures Now() == WokenLeaving(old(Now()))
    {
      woken := woken + [leaving[0]];
      leaving := leaving[1..];
    }
  }

  /** What became of a send: how many elements were delivered, or a violated assertion. */
  datatype SendResult = Delivered(n: nat) | AssertionFailed

  class Channel<T> {
    const bounded: bool
    const maxSize: nat
    const buf: Queue<T>
    const r: Half
    const w: Half
    const supply: seq<T>  // values that tasks may send
    var closed: bool
    ghost var sent: seq<T>
    ghost var received: seq<T>
    var fuel: nat
    var wakingR: bool
    var wakingW: bool
    var closing: bool

    ghost predicate Rep()
      reads buf, buf.buffer
    {
      r != w && buf.Valid() && (bounded ==> buf.buffer.Length == maxSize)
    }

    ghost function Now(): State<T>
      reads this, buf, r, w
    {
      State(bounded, maxSize, buf.contents, r.Now(), w.Now(), closed, sent, received, fuel, wakingR, wakingW, closing)
    }

    function ReadLimit(): Limit
      reads buf
    {
      Upto(buf.size)
    }

    function WriteLimit(): Limit
      reads this`closed, buf
    {
      if closed then Upto(0) else if !bounded then Unlimited
      else Upto(if buf.size <= maxSize then maxSize - buf.size else 0)
    }

    lemma Limits()
      requires Rep()
      ensures Now().ReadLimit() == ReadLimit() && Now().WriteLimit() == WriteLimit() && buf.size == |buf.contents|
    {}

    constructor Unbounded(supply: seq<T>, fuel: nat)
      ensures Rep() && fresh(buf) && fresh(buf.buffer) && fresh(r) && fresh(w) && this.supply == supply
      ensures var none := HalfState(0, [], [], {}, {}, []);
              Now() == State(false, 0, [], none, none, false, [], [], fuel, false, false, false)
      ensures Fine(Now())
    {
      bounded, maxSize, closed, this.supply, this.fuel := false, 0, false, supply, fuel;
      wakingR, wakingW, closing := false, false, false;
      buf := new Queue(0);
      r := new Half();
      w := new Half();
      sent, received := [], [];
    }

    constructor Bounded(maxSize: nat, supply: seq<T>, fuel: nat)
      requires maxSize > 0
      ensures Rep() && fresh(buf) && fresh(buf.buffer) && fresh(r) && fresh(w) && this.supply == supply
      ensures var none := HalfState(0, [], [], {}, {}, []);
              Now() == State(true, maxSize, [], none, none, false, [], [], fuel, false, false, false)
      ensures Fine(Now())
    {
      bounded, this.maxSize, closed, this.supply, this.fuel := true, maxSize, false, supply, fuel;
      wakingR, wakingW, closing := false, false, false;
      buf := new Queue(maxSize);
      r := new Half();
      w := new Half();
      sent, received := [], [];
    }

    // ----- waking

    /** wakeAwaiters() of the receivers, by a caller that has marked them as being woken. */
    method WakeReceivers(was: bool)
      requires Rep() && Fine(Now()) && wakingR
      modifies this, buf, buf.buffer, r, w
      ensures Rep() && Fine(Now()) && Steady(old(Now()).(wakingR := was), Now())
      ensures buf.buffer == old(buf.buffer) || fresh(buf.buffer)
      ensures fuel == old(fuel) ==> Now() == ReceiversWoken(old(Now())).(wakingR := was)
      decreases fuel, 2
    {
      hide Fine, Steady, WokenAll, WokenOne, Rep;
      ghost var s := Now();
      SteadySelf(s);
      var more := MoreReceivers();
      while more
        invariant Rep() && Fine(Now()) && Steady(s, Now()) && wakingR && fuel <= s.fuel
        invariant buf.buffer == old(buf.buffer) || fresh(buf.buffer)
        invariant fuel == s.fuel ==> ReceiversWoken(Now()) == ReceiversWoken(s)
        invariant more <==> Now().r.Unclaimed(Now().ReadLimit()) && r.parked != []
        decreases fuel, |r.parked|
      {
        ghost var s0 := Now();
        WakeReceiver();
        SteadyFacts(s0, Now());
        SteadyTrans(s, s0, Now());
        more := MoreReceivers();
      }
      SteadyFlags(s, Now(), was);
      StopReceivers(was);
    }

    method MoreReceivers() returns (more: bool)
      requires Rep()
      ensures more <==> Now().r.Unclaimed(Now().ReadLimit()) && Now().r.parked != []
    {
      Limits();
      more := r.Now().Unclaimed(ReadLimit()) && r.parked != [];
    }

    method StopReceivers(was: bool)
      requires Fine(Now()) && !(Now().r.Unclaimed(Now().ReadLimit()) && Now().r.parked != [])
      modifies this`wakingR
      ensures Fine(Now()) && Now() == old(Now()).(wakingR := was) == ReceiversWoken(old(Now())).(wakingR := was)
    {
      WakingOver(Now(), was);
      hide Fine, ReceiversWoken;
      wakingR := was;
    }

    /** One turn of that loop. */
    method WakeReceiver()
      requires Rep() && Fine(Now()) && wakingR && r.parked != [] && r.Now().Unclaimed(Now().ReadLimit())
      modifies this, buf, buf.buffer, r, w
      ensures Rep() && Fine(Now()) && Steady(old(Now()), Now())
      ensures buf.buffer == old(buf.buffer) || fresh(buf.buffer)
      ensures fuel == old(fuel) ==> ReceiversWoken(Now()) == ReceiversWoken(old(Now())) && |r.parked| < |old(r.parked)|
      decreases fuel, 1
    {
      ghost var s := Now();
      WakeReceiverFine(s);
      WokenParks(s.r);
      hide Fine, Steady, WokenAll, WokenOne;
      r.WakeOne();
      ghost var s1 := Now();
      Environment();
      SteadyFacts(s1, Now());
      SteadyTrans(s, s1, Now());
    }

    /** wakeAwaiters() of the senders, by a caller that has marked them as being woken. */
    method WakeSenders(was: bool)
      requires Rep() && Fine(Now()) && wakingW
      modifies this, buf, buf.buffer, r, w
      ensures Rep() && Fine(Now()) && Steady(old(Now()).(wakingW := was), Now())
      ensures buf.buffer == old(buf.buffer) || fresh(buf.buffer)
      ensures fuel == old(fuel) ==> Now() == SendersWoken(old(Now())).(wakingW := was)
      decreases fuel, 2
    {
      hide Fine, Steady, WokenAll, WokenOne, Rep;
      ghost var s := Now();
      SteadySelf(s);
      var more := MoreSenders();
      while more
        invariant Rep() && Fine(Now()) && Steady(s, Now()) && wakingW && fuel <= s.fuel
        invariant buf.buffer == old(buf.buffer) || fresh(buf.buffer)
        invariant fuel == s.fuel ==> SendersWoken(Now()) == SendersWoken(s)
        invariant more <==> Now().w.Unclaimed(Now().WriteLimit()) && w.parked != []
        decreases fuel, |w.parked|
      {
        ghost var s0 := Now();
        WakeSender();
        SteadyFacts(s0, Now());
        SteadyTrans(s, s0, Now());
        more := MoreSenders();
      }
      SteadyFlags(s, Now(), was);
      StopSenders(was);
    }

    method MoreSenders() returns (more: bool)
      requires Rep()
      ensures more <==> Now().w.Unclaimed(Now().WriteLimit()) && Now().w.parked != []
    {
      Limits();
      more := w.Now().Unclaimed(WriteLimit()) && w.parked != [];
    }

    method StopSenders(was: bool)
      requires Fine(Now()) && !(Now().w.Unclaimed(Now().WriteLimit()) && Now().w.parked != [])
      modifies this`wakingW
      ensures Fine(Now()) && Now() == old(Now()).(wakingW := was) == SendersWoken(old(Now())).(wakingW := was)
    {
      WakingOver(Now(), was);
      hide Fine, SendersWoken;
      wakingW := was;
    }

    /** One turn of that loop. */
    method WakeSender()
      requires Rep() && Fine(Now()) && wakingW && w.parked != [] && w.Now().Unclaimed(Now().WriteLimit())
      modifies this, buf, buf.buffer, r, w
      ensures Rep() && Fine(Now()) && Steady(old(Now()), Now())
      ensures buf.buffer == old(buf.buffer) || fresh(buf.buffer)
      ensures fuel == old(fuel) ==> SendersWoken(Now()) == SendersWoken(old(Now())) && |w.parked| < |old(w.parked)|
      decreases fuel, 1
    {
      ghost var s := Now();
      WakeSenderFine(s);
      WokenParks(s.w);
      hide Fine, Steady, WokenAll, WokenOne;
      w.WakeOne();
      ghost var s1 := Now();
      Environment();
      SteadyFacts(s1, Now());
      SteadyTrans(s, s1, Now());
    }

    // ----- transfers

    /** The rest of a transfer out of the buffer: claims are settled, and senders get to know. */
    method AfterTake(xs: seq<T>, claimedCount: nat, ghost s: State<T>)
      requires Rep() && Settling(s, claimedCount, 0) && claimedCount <= 1 && 0 < |xs| <= Available(s, claimedCount)
      requires |xs| <= |s.contents| && xs == s.contents[..|xs|] && Now() == s.(contents := s.contents[|xs|..])
      modifies this, buf, buf.buffer, r, w
      ensures Rep() && Fine(Now()) && Steady(s, Now()) && s.received + xs <= received
      ensures buf.buffer == old(buf.buffer) || fresh(buf.buffer)
      ensures fuel == old(fuel) ==> Now() == SendersWoken(TakenOut(s, |xs|, claimedCount))
      decreases fuel, 3
    {
      TakeFine(s, |xs|, claimedCount);
      hide Fine, Steady, Settling, SendersWoken, Rep;
      received := received + xs;
      r.Settle(claimedCount);
      var was := wakingW;
      wakingW := true;
      ghost var s1 := Now();
      assert s1 == TakenOut(s, |xs|, claimedCount).(wakingW := true) && s1.(wakingW := was) == TakenOut(s, |xs|, claimedCount);
      WakeSenders(was);
      SteadyFacts(s1.(wakingW := was), Now());
      SteadyTrans(s, s1.(wakingW := was), Now());
      FlagAside(s1, was);
    }

    /** ReadHalf::tryTransfer() of one element. */
    method TakeOne(claimedCount: nat) returns (x: Option<T>)
      requires Rep() && Settling(Now(), claimedCount, 0) && claimedCount <= 1
      modifies this, buf, buf.buffer, r, w
      ensures Rep() && Fine(Now()) && Steady(old(Now()), Now())
      ensures buf.buffer == old(buf.buffer) || fresh(buf.buffer)
      ensures x.None? <==> claimedCount == 0 && |old(buf.contents)| == old(r.claims)
      ensures x.None? ==> Now() == old(Now())
      ensures x.Some? ==> old(buf.contents) != [] && x.value == old(buf.contents)[0] && old(received) + [x.value] <= received
      ensures x.Some? && fuel == old(fuel) ==> Now() == SendersWoken(TakenOut(old(Now()), 1, claimedCount))
      decreases fuel, 4
    {
      ghost var s := Now();
      Limits();
      SettlingFacts(s, claimedCount, 0);
      SteadySelf(s);
      if claimedCount == 0 && !r.Now().Unclaimed(ReadLimit()) {
        return None;
      }
      hide Fine, Steady, Settling, SendersWoken, Holds;
      var front := buf.Front();
      buf.PopFront();
      assert [front] == s.contents[..1];
      AfterTake([front], claimedCount, s);
      x := Some(front);
    }

    /** ReadHalf::tryTransfer() of up to n elements. */
    method TakeMany(claimedCount: nat, n: nat) returns (xs: seq<T>)
      requires Rep() && Settling(Now(), claimedCount, 0) && claimedCount <= 1 && (claimedCount == 1 ==> n > 0)
      modifies this, buf, buf.buffer, r, w
      ensures Rep() && Fine(Now()) && Steady(old(Now()), Now())
      ensures buf.buffer == old(buf.buffer) || fresh(buf.buffer)
      ensures |xs| == Min(n, claimedCount + |old(buf.contents)| - old(r.claims))
      ensures xs == [] ==> Now() == old(Now())
      ensures xs <= old(buf.contents) && old(received) + xs <= received
      ensures xs != [] && fuel == old(fuel) ==> Now() == SendersWoken(TakenOut(old(Now()), |xs|, claimedCount))
      decreases fuel, 4
    {
      ghost var s := Now();
      Limits();
      SettlingFacts(s, claimedCount, 0);
      SteadySelf(s);
      var k := Min(n, claimedCount + (buf.size - r.claims));
      if k == 0 {
        return [];
      }
      hide Fine, Steady, Settling, SendersWoken, Holds;
      xs := buf.PopFrontTo(k);
      AfterTake(xs, claimedCount, s);
    }

    /** The rest of a transfer into the buffer: receivers get to know. */
    method AfterPut(xs: seq<T>, claimedCount: nat, ghost s: State<T>)
      requires Rep() && Settling(s, 0, claimedCount) && claimedCount <= 1 && xs != [] && !s.closed
      requires s.bounded ==> |xs| <= claimedCount + (s.maxSize - |s.contents| - s.w.claims)
      requires Now() == PutIn(s, xs, claimedCount).(sent := s.sent)
      modifies this, buf, buf.buffer, r, w
      ensures Rep() && Fine(Now()) && Steady(s, Now()) && s.sent + xs <= sent
      ensures buf.buffer == old(buf.buffer) || fresh(buf.buffer)
      ensures fuel == old(fuel) ==> Now() == ReceiversWoken(PutIn(s, xs, claimedCount))
      decreases fuel, 3
    {
      PutFine(s, xs, claimedCount);
      hide Fine, Steady, Settling, ReceiversWoken, Rep;
      sent := sent + xs;
      var was := wakingR;
      wakingR := true;
      ghost var s1 := Now();
      assert s1 == PutIn(s, xs, claimedCount).(wakingR := true) && s1.(wakingR := was) == PutIn(s, xs, claimedCount);
      WakeReceivers(was);
      SteadyFacts(s1.(wakingR := was), Now());
      SteadyTrans(s, s1.(wakingR := was), Now());
      FlagAside(s1, was);
    }

    /** WriteHalf::tryTransfer() of one element. */
    method PutOne(claimedCount: nat, x: T) returns (res: SendResult)
      requires Rep() && Settling(Now(), 0, claimedCount) && claimedCount <= 1
      modifies this, buf, buf.buffer, r, w
      ensures res.AssertionFailed? <==> SendAsserts(old(Now()), claimedCount, false)
      ensures res.AssertionFailed? ==> Now() == old(Now())
      ensures res.Delivered? ==> Rep() && Fine(Now()) && Steady(old(Now()), Now())
      ensures res.Delivered? ==> res.n == if claimedCount > 0 || old(Now().w.Unclaimed(Now().WriteLimit())) then 1 else 0
      ensures res.Delivered? && res.n == 0 ==> Now() == old(Now())
      ensures res.Delivered? && res.n == 1 ==> old(sent) + [x] <= sent
      ensures res.Delivered? && res.n == 1 && fuel == old(fuel) ==> Now() == ReceiversWoken(PutIn(old(Now()), [x], claimedCount))
      ensures buf.buffer == old(buf.buffer) || fresh(buf.buffer)
      decreases fuel, 4
    {
      ghost var s := Now();
      Limits();
      SettlingFacts(s, 0, claimedCount);
      SteadySelf(s);
      assert buf.size <= buf.buffer.Length;
      if claimedCount == 0 && !w.Now().Unclaimed(WriteLimit()) {
        return Delivered(0);
      }
      if closed || (bounded && buf.buffer.Length == buf.size) {
        return AssertionFailed;
      }
      hide Fine, Steady, Settling, ReceiversWoken, Holds;
      w.Settle(claimedCount);
      buf.PushBack(x);
      AfterPut([x], claimedCount, s);
      res := Delivered(1);
    }

    /** WriteHalf::tryTransfer() of a range. */
    method PutMany(claimedCount: nat, xs: seq<T>) returns (res: SendResult)
      requires Rep() && Settling(Now(), 0, claimedCount) && claimedCount <= 1 && (claimedCount == 1 ==> xs != [])
      modifies this, buf, buf.buffer, r, w
      ensures res.AssertionFailed? <==> xs != [] && SendAsserts(old(Now()), claimedCount, true)
      ensures res.AssertionFailed? ==> Now() == old(Now())
      ensures res.Delivered? ==> Rep() && Fine(Now()) && Steady(old(Now()), Now()) && res.n <= |xs|
      ensures res.Delivered? ==> res.n == match Room(old(Now()), claimedCount) case Unlimited => |xs| case Upto(n) => Min(|xs|, n)
      ensures res.Delivered? && res.n == 0 ==> Now() == old(Now())
      ensures res.Delivered? ==> old(sent) + xs[..res.n] <= sent
      ensures res.Delivered? && res.n > 0 && fuel == old(fuel) ==> Now() == ReceiversWoken(PutIn(old(Now()), xs[..res.n], claimedCount))
      ensures buf.buffer == old(buf.buffer) || fresh(buf.buffer)
      decreases fuel, 4
    {
      ghost var s := Now();
      Limits();
      SettlingFacts(s, 0, claimedCount);
      SteadySelf(s);
      if xs == [] {
        return Delivered(0);
      }
      var n := |xs|;
      if bounded {
        n := Min(n, claimedCount + if w.Now().Unclaimed(WriteLimit()) then WriteLimit().n - w.claims else 0);
        if n == 0 {
          return Delivered(0);
        }
      }
      if closed || (bounded && buf.buffer.Length == buf.size) {
        return AssertionFailed;
      }
      hide Fine, Steady, Settling, ReceiversWoken, Holds;
      buf.Append(xs[..n]);
      w.Settle(claimedCount);
      AfterPut(xs[..n], claimedCount, s);
      res := Delivered(n);
    }

    // ----- receivers

    /** Constructs a receiver, which claims an element if it can. */
    method NewReceiver(id: nat, noop: bool)
      requires Rep() && Fine(Now()) && id !in r.live
      modifies r
      ensures Rep() && Fine(Now()) && Steady(old(Now()), Now()) && Now() == NewReceived(old(Now()), id, noop)
      ensures r.claimed == old(r.claimed) + (if !noop && |old(r.claimed)| < |old(buf.contents)| then {id} else {}) && r.live == old(r.live) + {id}
      ensures r.parked == old(r.parked) && r.leaving == old(r.leaving) && r.woken == old(r.woken)
    {
      FineFacts(Now());
      Limits();
      NewReceiverFine(Now(), id, noop);
      hide Fine, Steady, Rep;
      r.Construct(id);
      if r.Now().Unclaimed(ReadLimit()) && !noop {
        r.DoClaim(id);
      }
    }

    /** await_suspend() of a receiver that is not ready. */
    method SuspendReceiver(id: nat) returns (parks: bool)
      requires Rep() && Fine(Now()) && !closed && id in r.live && id !in r.claimed && !r.Now().Waits(id)
      modifies r
      ensures Rep() && Fine(Now()) && Steady(old(Now()), Now()) && Now() == ReceiverSuspended(old(Now()), id)
      ensures parks <==> !old(Now().r.Unclaimed(Now().ReadLimit()))
      ensures parks <==> !(|old(r.claimed)| < |old(buf.contents)|)
      ensures parks ==> r.parked == old(r.parked) + [id] && r.claimed == old(r.claimed)
      ensures !parks ==> r.parked == old(r.parked) && r.claimed == old(r.claimed) + {id}
      ensures r.live == old(r.live) && r.leaving == old(r.leaving) && r.woken == old(r.woken)
    {
      FineFacts(Now());
      Limits();
      SuspendReceiverFine(Now(), id);
      hide Fine, Steady, Rep;
      parks := !r.Now().Unclaimed(ReadLimit());
      if parks {
        r.Park(id);
      } else {
        r.DoClaim(id);
      }
    }

    /** await_cancel() of a receiver. */
    method CancelReceiver(id: nat)
      requires Rep() && Fine(Now())
      modifies r
      ensures Rep() && Fine(Now()) && Steady(old(Now()), Now()) && Now() == old(Now()).(r := Unlinked(old(r.Now()), id))
      ensures !r.Now().Waits(id)
      ensures r.parked == Without(old(r.parked), id) && r.leaving == Without(old(r.leaving), id)
      ensures r.claims == old(r.claims) && r.claimed == old(r.claimed) && r.live == old(r.live) && r.woken == old(r.woken)
    {
      CancelReceiverFine(Now(), id);
      UnlinkOwes(r.Now(), id, 0) by { FineFacts(Now()); }
      hide Fine, Steady, Rep;
      r.Unlink(id);
    }

    /** A receiver is destroyed; if it did not use its claim, the one parked for longest gets it. */
    method DestroyReceiver(id: nat)
      requires Rep() && Fine(Now()) && id in r.live
      modifies this, buf, buf.buffer, r, w
      ensures Rep() && Fine(Now()) && Steady(old(Now()), Now())
      ensures buf.buffer == old(buf.buffer) || fresh(buf.buffer)
      ensures var s := old(Now()).(r := Dropped(old(r.Now()), id));
              fuel == old(fuel) ==> Now() == if id in old(r.claimed) then ReceiversWoken(s) else s
      ensures fuel == old(fuel) ==> id !in r.live && r.live == old(r.live) - {id}
      ensures fuel == old(fuel) && id !in old(r.claimed) ==>
                r.parked == Without(old(r.parked), id) && r.claimed == old(r.claimed) && r.woken == old(r.woken)
      ensures fuel == old(fuel) && id in old(r.claimed) && !old(wakingR) ==>
                && var k := Min(1, |old(r.parked)|);
                   && r.woken == old(r.woken) + old(r.parked)[..k] && r.parked == old(r.parked)[k..]
                   && r.claimed == old(r.claimed) - {id} + Members(old(r.parked)[..k])
      decreases fuel, 5
    {
      ghost var s := Now();
      hide Fine, Steady, Rep, Dropped, ReceiversWoken, Members, Without;
      ReleaseReceiver(id);
      if fuel == s.fuel { DestroyedReceiver(s, id); }
    }

    method ReleaseReceiver(id: nat)
      requires Rep() && Fine(Now()) && id in r.live
      modifies this, buf, buf.buffer, r, w
      ensures Rep() && Fine(Now()) && Steady(old(Now()), Now())
      ensures buf.buffer == old(buf.buffer) || fresh(buf.buffer)
      ensures var s := old(Now()).(r := Dropped(old(r.Now()), id));
              fuel == old(fuel) ==> Now() == if id in old(r.claimed) then ReceiversWoken(s) else s
      decreases fuel, 4
    {
      ghost var s := Now();
      FineFacts(s);
      ClaimedCounts(s.r, id);
      var claimed, was := id in r.claimed, wakingR;
      DropReceiver(s, id, claimed);
      hide Fine, Steady, Rep, Dropped, Owing;
      if claimed {
        wakingR := true;
      }
      r.Drop(id);
      if claimed {
        ghost var s1 := Now();
        WakeReceivers(was);
        SteadyFacts(s1.(wakingR := was), Now());
        SteadyTrans(s, s1.(wakingR := was), Now());
        FlagAside(s1, was);
      }
    }

    /** await_resume() of a receiver: one that has claimed always gets an element. */
    method Receive(id: nat) returns (x: Option<T>)
      requires Rep() && Fine(Now()) && id in r.live && (id in r.claimed || closed) && !r.Now().Waits(id)
      modifies this, buf, buf.buffer, r, w
      ensures Rep() && Fine(Now()) && Steady(old(Now()), Now())
      ensures buf.buffer == old(buf.buffer) || fresh(buf.buffer)
      ensures x.None? <==> id !in old(r.claimed) && |old(buf.contents)| == old(r.claims)
      ensures x.Some? ==> old(buf.contents) != [] && x.value == old(buf.contents)[0] && old(received) + [x.value] <= received
      ensures var s := old(Now()).(r := Cleared(old(r.Now()), id));
              fuel == old(fuel) ==> Now() == if x.None? then s else SendersWoken(TakenOut(s, 1, Due(old(r.Now()), id)))
      decreases fuel, 5
    {
      ghost var s := Now();
      ClearRFine(s, id);
      hide Fine, Steady, Rep, Settling;
      var due := r.ClearBits(id);
      x := TakeOne(due);
      ClearedSteady(s, id, Now());
    }

    method ReceiveMany(id: nat, n: nat) returns (xs: seq<T>)
      requires Rep() && Fine(Now()) && id in r.live && (id in r.claimed || closed || n == 0) && !r.Now().Waits(id)
      requires n == 0 ==> id !in r.claimed
      modifies this, buf, buf.buffer, r, w
      ensures Rep() && Fine(Now()) && Steady(old(Now()), Now())
      ensures buf.buffer == old(buf.buffer) || fresh(buf.buffer)
      ensures |xs| == Min(n, Due(old(r.Now()), id) + |old(buf.contents)| - old(r.claims)) && xs <= old(buf.contents)
      ensures id in old(r.claimed) ==> |xs| >= 1
      ensures old(received) + xs <= received
      ensures var s := old(Now()).(r := Cleared(old(r.Now()), id));
              fuel == old(fuel) ==> Now() == if xs == [] then s else SendersWoken(TakenOut(s, |xs|, Due(old(r.Now()), id)))
      decreases fuel, 5
    {
      ghost var s := Now();
      ClearRFine(s, id);
      FineFacts(s);
      hide Fine, Steady, Rep, Settling;
      var due := r.ClearBits(id);
      xs := TakeMany(due, n);
      ClearedSteady(s, id, Now());
    }

    /** tryReceive() takes an element exactly if one is not claimed. */
    method TryReceive() returns (x: Option<T>)
      requires Rep() && Fine(Now())
      modifies this, buf, buf.buffer, r, w
      ensures Rep() && Fine(Now()) && Steady(old(Now()), Now())
      ensures buf.buffer == old(buf.buffer) || fresh(buf.buffer)
      ensures x.Some? <==> |old(r.claimed)| < |old(buf.contents)|
      ensures x.Some? ==> x.value == old(buf.contents)[0] && old(received) + [x.value] <= received
      ensures fuel == old(fuel) ==> Now() == if x.None? then old(Now()) else SendersWoken(TakenOut(old(Now()), 1, 0))
      decreases fuel, 5
    {
      FineFacts(Now());
      hide Fine, Steady, Rep;
      x := TakeOne(0);
    }

    /** tryReceive() of up to n elements: all that are not claimed. */
    method TryReceiveMany(n: nat) returns (xs: seq<T>)
      requires Rep() && Fine(Now())
      modifies this, buf, buf.buffer, r, w
      ensures Rep() && Fine(Now()) && Steady(old(Now()), Now())
      ensures buf.buffer == old(buf.buffer) || fresh(buf.buffer)
      ensures |xs| == Min(n, |old(buf.contents)| - |old(r.claimed)|) && xs <= old(buf.contents) && old(received) + xs <= received
      ensures fuel == old(fuel) ==> Now() == if xs == [] then old(Now()) else SendersWoken(TakenOut(old(Now()), |xs|, 0))
      decreases fuel, 5
    {
      FineFacts(Now());
      hide Fine, Steady, Rep;
      xs := TakeMany(0, n);
    }

    // ----- senders

    /** Constructs a sender, which claims a free slot if it can. */
    method NewSender(id: nat, noop: bool)
      requires Rep() && Fine(Now()) && id !in w.live
      modifies w
      ensures Rep() && Fine(Now()) && Steady(old(Now()), Now()) && Now() == NewSent(old(Now()), id, noop)
      ensures w.claimed == old(w.claimed) + (if !noop && !old(closed) && (bounded ==> |old(w.claimed)| + |old(buf.contents)| < maxSize) then {id} else {}) && w.live == old(w.live) + {id}
      ensures w.parked == old(w.parked) && w.leaving == old(w.leaving) && w.woken == old(w.woken)
    {
      FineFacts(Now());
      Limits();
      NewSenderFine(Now(), id, noop);
      hide Fine, Steady, Rep;
      w.Construct(id);
      if w.Now().Unclaimed(WriteLimit()) && !noop {
        w.DoClaim(id);
      }
    }

    method SuspendSender(id: nat) returns (parks: bool)
      requires Rep() && Fine(Now()) && !closed && id in w.live && id !in w.claimed && !w.Now().Waits(id)
      modifies w
      ensures Rep() && Fine(Now()) && Steady(old(Now()), Now()) && Now() == SenderSuspended(old(Now()), id)
      ensures parks <==> !old(Now().w.Unclaimed(Now().WriteLimit()))
      ensures parks <==> !(!old(closed) && (bounded ==> |old(w.claimed)| + |old(buf.contents)| < maxSize))
      ensures parks ==> w.parked == old(w.parked) + [id] && w.claimed == old(w.claimed)
      ensures !parks ==> w.parked == old(w.parked) && w.claimed == old(w.claimed) + {id}
      ensures w.live == old(w.live) && w.leaving == old(w.leaving) && w.woken == old(w.woken)
    {
      FineFacts(Now());
      Limits();
      SuspendSenderFine(Now(), id);
      hide Fine, Steady, Rep;
      parks := !w.Now().Unclaimed(WriteLimit());
      if parks {
        w.Park(id);
      } else {
        w.DoClaim(id);
      }
    }

    method CancelSender(id: nat)
      requires Rep() && Fine(Now())
      modifies w
      ensures Rep() && Fine(Now()) && Steady(old(Now()), Now()) && Now() == old(Now()).(w := Unlinked(old(w.Now()), id))
      ensures !w.Now().Waits(id)
      ensures w.parked == Without(old(w.parked), id) && w.leaving == Without(old(w.leaving), id)
      ensures w.claims == old(w.claims) && w.claimed == old(w.claimed) && w.live == old(w.live) && w.woken == old(w.woken)
    {
      CancelSenderFine(Now(), id);
      UnlinkOwes(w.Now(), id, 0) by { FineFacts(Now()); }
      hide Fine, Steady, Rep;
      w.Unlink(id);
    }

    /** A sender is destroyed; if it did not use its claim, the one parked for longest gets it. */
    method DestroySender(id: nat)
      requires Rep() && Fine(Now()) && id in w.live
      modifies this, buf, buf.buffer, r, w
      ensures Rep() && Fine(Now()) && Steady(old(Now()), Now())
      ensures buf.buffer == old(buf.buffer) || fresh(buf.buffer)
      ensures var s := old(Now()).(w := Dropped(old(w.Now()), id));
              fuel == old(fuel) ==> Now() == if id in old(w.claimed) then SendersWoken(s) else s
      ensures fuel == old(fuel) ==> id !in w.live && w.live == old(w.live) - {id}
      ensures fuel == old(fuel) && id !in old(w.claimed) ==>
                w.parked == Without(old(w.parked), id) && w.claimed == old(w.claimed) && w.woken == old(w.woken)
      ensures fuel == old(fuel) && id in old(w.claimed) && !old(wakingW) && !old(closed) ==>
                && var k := Min(1, |old(w.parked)|);
                   && w.woken == old(w.woken) + old(w.parked)[..k] && w.parked == old(w.parked)[k..]
                   && w.claimed == old(w.claimed) - {id} + Members(old(w.parked)[..k])
      decreases fuel, 5
    {
      ghost var s := Now();
      hide Fine, Steady, Rep, Dropped, SendersWoken, Members, Without;
      ReleaseSender(id);
      if fuel == s.fuel { DestroyedSender(s, id); }
    }

    method ReleaseSender(id: nat)
      requires Rep() && Fine(Now()) && id in w.live
      modifies this, buf, buf.buffer, r, w
      ensures Rep() && Fine(Now()) && Steady(old(Now()), Now())
      ensures buf.buffer == old(buf.buffer) || fresh(buf.buffer)
      ensures var s := old(Now()).(w := Dropped(old(w.Now()), id));
              fuel == old(fuel) ==> Now() == if id in old(w.claimed) then SendersWoken(s) else s
      decreases fuel, 4
    {
      ghost var s := Now();
      FineFacts(s);
      ClaimedCounts(s.w, id);
      var claimed, was := id in w.claimed, wakingW;
      DropSender(s, id, claimed);
      hide Fine, Steady, Rep, Dropped, Owing;
      if claimed {
        wakingW := true;
      }
      w.Drop(id);
      if claimed {
        ghost var s1 := Now();
        WakeSenders(was);
        SteadyFacts(s1.(wakingW := was), Now());
        SteadyTrans(s, s1.(wakingW := was), Now());
        FlagAside(s1, was);
      }
    }

    /** await_resume() of a sender: one that has claimed delivers, unless the channel has been closed in
        between, which trips an assertion. */
    method Send(id: nat, x: T) returns (res: SendResult)
      requires Rep() && Fine(Now()) && id in w.live && (id in w.claimed || closed) && !w.Now().Waits(id)
      modifies this, buf, buf.buffer, r, w
      ensures res.AssertionFailed? <==> id in old(w.claimed) && old(closed)
      ensures res.AssertionFailed? ==> closed
      ensures res.Delivered? ==> Rep() && Fine(Now()) && Steady(old(Now()), Now())
      ensures res.Delivered? ==> res.n == Due(old(w.Now()), id) && old(sent) + (if res.n == 1 then [x] else []) <= sent
      ensures var s := old(Now()).(w := Cleared(old(w.Now()), id));
              res.Delivered? && fuel == old(fuel) ==> Now() == if res.n == 0 then s else ReceiversWoken(PutIn(s, [x], 1))
      ensures buf.buffer == old(buf.buffer) || fresh(buf.buffer)
      decreases fuel, 5
    {
      ghost var s := Now();
      ClearWFine(s, id);
      hide Fine, Steady, Rep, Settling;
      var due := w.ClearBits(id);
      res := PutOne(due, x);
      if res.Delivered? { ClearedSteady(s, id, Now()); }
    }

    method SendMany(id: nat, xs: seq<T>) returns (res: SendResult)
      requires Rep() && Fine(Now()) && id in w.live && (id in w.claimed || closed || xs == []) && !w.Now().Waits(id)
      requires xs == [] ==> id !in w.claimed
      modifies this, buf, buf.buffer, r, w
      ensures res.AssertionFailed? <==> old(closed) && xs != [] && (id in old(w.claimed) || !bounded)
      ensures res.AssertionFailed? ==> closed
      ensures res.Delivered? ==> Rep() && Fine(Now()) && Steady(old(Now()), Now())
      ensures res.Delivered? ==> res.n <= |xs| && old(sent) + xs[..res.n] <= sent && (id in old(w.claimed) ==> res.n >= 1)
      ensures buf.buffer == old(buf.buffer) || fresh(buf.buffer)
      decreases fuel, 5
    {
      ghost var s := Now();
      ClearWFine(s, id);
      hide Fine, Steady, Rep, Settling;
      var due := w.ClearBits(id);
      res := PutMany(due, xs);
      if res.Delivered? { ClearedSteady(s, id, Now()); }
    }

    /** trySend() delivers exactly if there is a slot that is not claimed. */
    method TrySend(x: T) returns (res: SendResult)
      requires Rep() && Fine(Now())
      modifies this, buf, buf.buffer, r, w
      ensures res.Delivered? && Rep() && Fine(Now()) && Steady(old(Now()), Now())
      ensures res.n == 1 <==> !old(closed) && (bounded ==> |old(buf.contents)| + |old(w.claimed)| < maxSize)
      ensures old(sent) + (if res.n == 1 then [x] else []) <= sent
      ensures fuel == old(fuel) ==> Now() == if res.n == 1 then ReceiversWoken(PutIn(old(Now()), [x], 0)) else old(Now())
      ensures buf.buffer == old(buf.buffer) || fresh(buf.buffer)
      decreases fuel, 5
    {
      FineFacts(Now());
      hide Fine, Steady, Rep;
      res := PutOne(0, x);
    }

    /** trySend() of a range: as much as there are slots that are not claimed. On a closed channel without
        a bound, an assertion fails instead. */
    method TrySendMany(xs: seq<T>) returns (res: SendResult)
      requires Rep() && Fine(Now())
      modifies this, buf, buf.buffer, r, w
      ensures res.AssertionFailed? <==> old(closed) && !bounded && xs != []
      ensures res.AssertionFailed? ==> closed
      ensures res.Delivered? ==> Rep() && Fine(Now()) && Steady(old(Now()), Now()) && res.n <= |xs| && old(sent) + xs[..res.n] <= sent
      ensures res.Delivered? && bounded && !old(closed) ==> res.n == Min(|xs|, maxSize - |old(buf.contents)| - |old(w.claimed)|)
      ensures buf.buffer == old(buf.buffer) || fresh(buf.buffer)
      decreases fuel, 5
    {
      FineFacts(Now());
      hide Fine, Steady, Rep;
      res := PutMany(0, xs);
    }

    // ----- closing

    /** close(): everybody who is parked when it gets to them is woken, without a claim. */
    method Close()
      requires Rep() && Fine(Now())
      modifies this, buf, buf.buffer, r, w
      ensures Rep() && Fine(Now()) && Steady(old(Now()), Now()) && closed
      ensures !closing ==> r.parked == [] && w.parked == []
      ensures fuel == old(fuel) && !closing ==>
                && r.woken == old(r.woken) + old(r.parked) && w.woken == old(w.woken) + old(w.parked)
                && r.claimed == old(r.claimed) && w.claimed == old(w.claimed) && buf.contents == old(buf.contents)
      ensures buf.buffer == old(buf.buffer) || fresh(buf.buffer)
      decreases fuel, 6
    {
      ghost var s := Now();
      hide Fine, Steady, Rep, AllWoken;
      CloseBoth();
      if !closing { AllWokenInOrder(s); }
    }

    method CloseBoth()
      requires Rep() && Fine(Now())
      modifies this, buf, buf.buffer, r, w
      ensures Rep() && Fine(Now()) && Steady(old(Now()), Now()) && closed && closing == old(closing)
      ensures !closing ==> r.parked == [] && w.parked == []
      ensures fuel == old(fuel) && !closing ==> Now() == AllWoken(old(Now()))
      ensures buf.buffer == old(buf.buffer) || fresh(buf.buffer)
      decreases fuel, 5
    {
      ghost var s := Now();
      var was := closing;
      NobodyMoved(s);
      hide Fine, Steady, Rep, MovedOut, LeavingGone;
      CloseReceivers();
      ghost var s2 := Now();
      CloseSenders();
      CloseSteady(s, s2, Now(), was);
      SentFuel(s2.(w := MovedOut(s2.w)), Now());
      closing := was;
    }

    method CloseReceivers()
      requires Rep() && Fine(Now())
      modifies this, buf, buf.buffer, r, w
      ensures Rep() && Fine(Now()) && Steady(Shut(old(Now())), Now()) && closing && fuel <= old(fuel)
      ensures if old(r.parked) != [] then r.leaving == [] else Now() == Shut(old(Now()))
      ensures fuel == old(fuel) ==> Now() == Shut(old(Now())).(r := if old(r.parked) == [] then old(r.Now()) else LeavingGone(MovedOut(old(r.Now()))))
      ensures buf.buffer == old(buf.buffer) || fresh(buf.buffer)
      decreases fuel, 4
    {
      CloseBegins(Now());
      SteadySelf(Shut(Now()));
      var mine := r.parked != [];
      hide Fine, Steady, Rep;
      closed, closing := true, true;
      r.MoveOut();
      ghost var s1 := Now();
      if mine {
        LetReceiversGo();
        SteadyFacts(s1, Now());
      }
    }

    method CloseSenders()
      requires Rep() && Fine(Now()) && closing
      modifies this, buf, buf.buffer, r, w
      ensures Rep() && Fine(Now()) && Steady(old(Now()).(w := MovedOut(old(w.Now()))), Now())
      ensures if old(w.parked) != [] then w.leaving == [] else Now() == old(Now())
      ensures fuel == old(fuel) ==> Now() == old(Now()).(w := if old(w.parked) == [] then old(w.Now()) else LeavingGone(MovedOut(old(w.Now()))))
      ensures buf.buffer == old(buf.buffer) || fresh(buf.buffer)
      decreases fuel, 4
    {
      ghost var s := Now();
      MoveSendersFine(s);
      SteadySelf(s.(w := MovedOut(s.w)));
      var mine := w.parked != [];
      hide Fine, Steady, Rep;
      w.MoveOut();
      if mine {
        LetSendersGo();
      }
    }

    /** The loop of unparkAll() for the receivers. */
    method LetReceiversGo()
      requires Rep() && Fine(Now()) && r.parked == []
      modifies this, buf, buf.buffer, r, w
      ensures Rep() && Fine(Now()) && Steady(old(Now()), Now()) && r.leaving == []
      ensures fuel == old(fuel) ==> Now() == old(Now()).(r := old(r.Now()).(leaving := [], woken := old(r.woken) + old(r.leaving)))
      ensures buf.buffer == old(buf.buffer) || fresh(buf.buffer)
      decreases fuel, 2
    {
      assert r != w;
      hide Fine, Steady, Rep;
      ghost var s := Now();
      SteadySelf(s);
      while r.leaving != []
        invariant Rep() && Fine(Now()) && Steady(s, Now()) && fuel <= s.fuel
        invariant fuel == s.fuel ==> LeavingGone(Now().r) == LeavingGone(s.r) && Now() == s.(r := Now().r)
        invariant buf.buffer == old(buf.buffer) || fresh(buf.buffer)
        decreases fuel, |r.leaving|
      {
        ghost var s0 := Now();
        LeaveReceiverFine(s0);
        GoneStep(s0.r);
        r.WakeLeaving();
        ghost var s1 := Now();
        assert s1 == s0.(r := WokenLeaving(s0.r));
        Environment();
        SteadyFacts(s1, Now());
        SteadyTrans(s0, s1, Now());
        SteadyTrans(s, s0, Now());
      }
    }

    method LetSendersGo()
      requires Rep() && Fine(Now()) && w.parked == []
      modifies this, buf, buf.buffer, r, w
      ensures Rep() && Fine(Now()) && Steady(old(Now()), Now()) && w.leaving == []
      ensures fuel == old(fuel) ==> Now() == old(Now()).(w := old(w.Now()).(leaving := [], woken := old(w.woken) + old(w.leaving)))
      ensures buf.buffer == old(buf.buffer) || fresh(buf.buffer)
      decreases fuel, 2
    {
      assert r != w;
      hide Fine, Steady, Rep;
      ghost var s := Now();
      SteadySelf(s);
      while w.leaving != []
        invariant Rep() && Fine(Now()) && Steady(s, Now()) && fuel <= s.fuel
        invariant fuel == s.fuel ==> LeavingGone(Now().w) == LeavingGone(s.w) && Now() == s.(w := Now().w)
        invariant buf.buffer == old(buf.buffer) || fresh(buf.buffer)
        decreases fuel, |w.leaving|
      {
        ghost var s0 := Now();
        LeaveSenderFine(s0);
        GoneStep(s0.w);
        w.WakeLeaving();
        ghost var s1 := Now();
        assert s1 == s0.(w := WokenLeaving(s0.w));
        Environment();
        SteadyFacts(s1, Now());
        SteadyTrans(s0, s1, Now());
        SteadyTrans(s, s0, Now());
      }
    }

    // ----- everything together

    /** What woken tasks may do. An operation that fails an assertion ends the program, and is left to
        AnyRun(). */
    method Environment()
      requires Rep() && Fine(Now())
      modifies this, buf, buf.buffer, r, w
      ensures Rep() && Fine(Now()) && Steady(old(Now()), Now())
      ensures buf.buffer == old(buf.buffer) || fresh(buf.buffer)
      ensures fuel == old(fuel) ==> Now() == old(Now())
      decreases fuel, 0, 1
    {
      hide Fine, Steady, Rep;
      ghost var s := Now();
      SteadySelf(s);
      var more: bool := *;
      while more && fuel > 0
        invariant Rep() && Fine(Now()) && Steady(s, Now()) && fuel <= s.fuel
        invariant buf.buffer == old(buf.buffer) || fresh(buf.buffer)
        invariant fuel == s.fuel ==> Now() == s
        decreases fuel
      {
        ghost var s0 := Now();
        OneAction();
        SteadyFacts(s0, Now());
        SteadyTrans(s, s0, Now());
        more := *;
      }
    }

    method OneAction()
      requires Rep() && Fine(Now()) && fuel > 0
      modifies this, buf, buf.buffer, r, w
      ensures Rep() && Fine(Now()) && Steady(old(Now()), Now()) && fuel < old(fuel)
      ensures buf.buffer == old(buf.buffer) || fresh(buf.buffer)
      decreases fuel, 0, 0
    {
      hide Fine, Steady, Rep;
      ghost var s := Now();
      FuelSpent(s);
      fuel := fuel - 1;
      ghost var s1 := Now();
      var _ := Act(false);
      SteadyFacts(s1, Now());
      SteadyTrans(s, s1, Now());
    }

    /** Any one operation; one that fails an assertion only if `risky`. */
    method Act(risky: bool) returns (failed: bool)
      requires Rep() && Fine(Now())
      modifies this, buf, buf.buffer, r, w
      ensures failed ==> risky && closed
      ensures !failed ==> Rep() && Fine(Now()) && Steady(old(Now()), Now())
      ensures buf.buffer == old(buf.buffer) || fresh(buf.buffer)
      decreases fuel, 7
    {
      failed := false;
      var who: int, id: int := *, *;
      var awaiter: nat := if id < 0 then -id else id;
      if who == 0 {
        Close();
      } else if who < 0 {
        ReceiverActs(awaiter);
      } else {
        failed := SenderActs(awaiter, risky);
      }
    }

    method ReceiverActs(id: nat)
      requires Rep() && Fine(Now())
      modifies this, buf, buf.buffer, r, w
      ensures Rep() && Fine(Now()) && Steady(old(Now()), Now())
      ensures buf.buffer == old(buf.buffer) || fresh(buf.buffer)
      decreases fuel, 6
    {
      SteadySelf(Now());
      hide Fine, Steady, Rep;
      var choice: int, k: int, many: bool := *, *, *;
      var n: nat := if k < 0 then 0 else k;
      if id !in r.live {
        if choice == 0 {
          NewReceiver(id, many && n == 0);
        } else if many {
          var _ := TryReceiveMany(n);
        } else {
          var _ := TryReceive();
        }
      } else if choice == 0 {
        DestroyReceiver(id);
      } else if choice == 1 {
        CancelReceiver(id);
      } else if r.Now().Waits(id) {
        return;
      } else if id in r.claimed || closed {
        if many && n > 0 {
          var _ := ReceiveMany(id, n);
        } else {
          var _ := Receive(id);
        }
      } else {
        var _ := SuspendReceiver(id);
      }
    }

    method SenderActs(id: nat, risky: bool) returns (failed: bool)
      requires Rep() && Fine(Now())
      modifies this, buf, buf.buffer, r, w
      ensures failed ==> risky && closed
      ensures !failed ==> Rep() && Fine(Now()) && Steady(old(Now()), Now())
      ensures buf.buffer == old(buf.buffer) || fresh(buf.buffer)
      decreases fuel, 6
    {
      failed := false;
      SteadySelf(Now());
      hide Fine, Steady, Rep;
      var choice: int, many: bool := *, *;
      var from: int, to: int := *, *;
      var xs := if 0 <= from <= to <= |supply| then supply[from..to] else [];
      if id !in w.live {
        if choice == 0 {
          NewSender(id, many && xs == []);
        } else if many {
          if risky || !closed || bounded {
            var res := TrySendMany(xs);
            failed := res.AssertionFailed?;
          }
        } else if xs != [] {
          var _ := TrySend(xs[0]);
        }
      } else if choice == 0 {
        DestroySender(id);
      } else if choice == 1 {
        CancelSender(id);
      } else if w.Now().Waits(id) {
        return;
      } else if id in w.claimed || closed {
        if xs != [] && (risky || !closed || (id !in w.claimed && (bounded || !many))) {
          var res;
          if many {
            res := SendMany(id, xs);
          } else {
            res := Send(id, xs[0]);
          }
          failed := res.AssertionFailed?;
        }
      } else {
        var _ := SuspendSender(id);
      }
    }

    /** Any run: up to a violated assertion, which takes a closed channel, nothing is lost, reordered or
        promised twice, and nobody is parked for what is there. */
    method AnyRun(steps: nat) returns (failed: bool)
      requires Rep() && Fine(Now()) && !wakingR && !wakingW && !closing
      modifies this, buf, buf.buffer, r, w
      ensures failed ==> closed
      ensures !failed ==>
                && sent == received + buf.contents
                && |r.claimed| <= |buf.contents|
                && (bounded ==> |w.claimed| + |buf.contents| <= maxSize == buf.buffer.Length)
                && (r.parked != [] ==> !closed && |r.claimed| == |buf.contents|)
                && (w.parked != [] ==> !closed && bounded && |w.claimed| + |buf.contents| == maxSize)
                && r.leaving == w.leaving == []
    {
      hide Fine, Steady, Rep;
      var left := steps;
      failed := false;
      while left > 0 && !failed
        invariant !failed ==> Rep() && Fine(Now()) && !wakingR && !wakingW && !closing
        invariant failed ==> closed
        invariant buf.buffer == old(buf.buffer) || fresh(buf.buffer)
      {
        ghost var s := Now();
        failed := Act(true);
        if !failed { SteadyFacts(s, Now()); }
        left := left - 1;
      }
      if !failed {
        FineFacts(Now());
        Limits();
        Measures();
      }
    }

    lemma Measures()
      requires Rep()
      ensures bounded ==> maxSize == buf.buffer.Length
    {}
  }

  lemma FuelSpent<T>(s: State<T>)
    requires Fine(s) && s.fuel > 0
    ensures Fine(s.(fuel := s.fuel - 1)) && Steady(s, s.(fuel := s.fuel - 1))
  {}

  // ----- what goes wrong

  /** A sender that has claimed a slot fails an assertion if the channel is closed before it delivers. */
  method ClaimedSendFails() returns (c: Channel<bool>, res: SendResult)
    ensures res.AssertionFailed? && c.bounded && c.closed
  {
    c := new Channel.Bounded(1, [], 0);
    c.NewSender(0, false);
    assert 0 in c.w.claimed;
    hide Fine, Steady;
    c.Close();
    assert 0 in c.w.claimed && 0 in c.w.live && !c.w.Now().Waits(0);
    res := c.Send(0, true);
  }

  /** So does a range that is sent to a closed channel without a bound. */
  method BulkSendFails() returns (c: Channel<bool>, res: SendResult)
    ensures res.AssertionFailed? && !c.bounded && c.closed
  {
    c := new Channel.Unbounded([], 0);
    hide Fine, Steady;
    c.Close();
    res := c.TrySendMany([true]);
  }

  lemma FlagAside<T>(s: State<T>, was: bool)
    ensures SendersWoken(s).(wakingW := was) == SendersWoken(s.(wakingW := was))
    ensures ReceiversWoken(s).(wakingR := was) == ReceiversWoken(s.(wakingR := was))
  {}

  lemma ClaimedCounts(h: HalfState, id: nat)
    requires Owing(h, 0)
    ensures id in h.claimed ==> h.claims > 0
  {
    if id in h.claimed { assert |h.claimed - {id}| == |h.claimed| - 1; }
  }

  lemma DropReceiver<T>(s: State<T>, id: nat, claimed: bool)
    requires Fine(s) && claimed == (id in s.r.claimed)
    ensures claimed ==> Fine(s.(wakingR := true, r := Dropped(s.r, id)))
    ensures !claimed ==> Fine(s.(r := Dropped(s.r, id)))
    ensures Steady(s, s.(r := Dropped(s.r, id)))
  {
    WakingOver(s, true);
    if claimed {
      DropReceiverFine(s.(wakingR := true), id);
      SteadyFlags(s.(wakingR := true), s.(wakingR := true, r := Dropped(s.r, id)), s.wakingR);
    } else {
      DropReceiverFine(s, id);
    }
  }

  lemma DropSender<T>(s: State<T>, id: nat, claimed: bool)
    requires Fine(s) && claimed == (id in s.w.claimed)
    ensures claimed ==> Fine(s.(wakingW := true, w := Dropped(s.w, id)))
    ensures !claimed ==> Fine(s.(w := Dropped(s.w, id)))
    ensures Steady(s, s.(w := Dropped(s.w, id)))
  {
    WakingOver(s, true);
    if claimed {
      DropSenderFine(s.(wakingW := true), id);
      SteadyFlags(s.(wakingW := true), s.(wakingW := true, w := Dropped(s.w, id)), s.wakingW);
    } else {
      DropSenderFine(s, id);
    }
  }

  lemma ClearedSteady<T>(s: State<T>, id: nat, s': State<T>)
    ensures Steady(s.(r := Cleared(s.r, id)), s') ==> Steady(s, s')
    ensures Steady(s.(w := Cleared(s.w, id)), s') ==> Steady(s, s')
  {}

  function LeavingGone(h: HalfState): HalfState {
    h.(leaving := [], woken := h.woken + h.leaving)
  }

  lemma GoneStep(h: HalfState)
    requires h.leaving != []
    ensures LeavingGone(WokenLeaving(h)) == LeavingGone(h)
  {}

  /** What close() does, if nobody interferes. */
  function AllWoken<T>(s: State<T>): State<T> {
    s.(closed := true, r := LeavingGone(MovedOut(s.r)), w := LeavingGone(MovedOut(s.w)))
  }

  lemma AllWokenInOrder<T>(s: State<T>)
    requires Fine(s) && !s.closing
    ensures var s' := AllWoken(s);
            && s'.r.woken == s.r.woken + s.r.parked && s'.w.woken == s.w.woken + s.w.parked
            && s'.r.claimed == s.r.claimed && s'.w.claimed == s.w.claimed && s'.contents == s.contents
  {
    FineFacts(s);
    hide Fine;
  }

  /** close() has set the flag and moved the receivers out. */
  function Shut<T>(s: State<T>): State<T> {
    s.(closed := true, closing := true, r := MovedOut(s.r))
  }

  lemma CloseSteady<T>(s: State<T>, s2: State<T>, s4: State<T>, was: bool)
    requires Fine(s) && s.closing == was && Fine(s2) && Fine(s4)
    requires Steady(Shut(s), s2) && Steady(s2.(w := MovedOut(s2.w)), s4)
    requires if s.r.parked != [] then s2.r.leaving == [] else s2 == Shut(s)
    requires if s2.w.parked != [] then s4.w.leaving == [] else s4 == s2
    ensures var s5 := s4.(closing := was); Fine(s5) && Steady(s, s5) && s5.closed && (!was ==> s5.r.parked == [] && s5.w.parked == [])
  {
    FineFacts(s);
    FineFacts(s4);
    SteadyFacts(Shut(s), s2);
    SteadyFacts(s2.(w := MovedOut(s2.w)), s4);
    CloseEnds(s4, was);
    hide Fine, Owing;
  }

  lemma SentFuel<T>(s: State<T>, s': State<T>)
    requires Steady(s, s')
    ensures s'.fuel <= s.fuel
  {}

  /** A half with nobody parked or leaving is not changed by close(). */
  lemma NobodyMoved<T>(s: State<T>)
    requires Fine(s)
    ensures !s.closing && s.r.parked == [] ==> LeavingGone(MovedOut(s.r)) == s.r
    ensures !s.closing && s.w.parked == [] ==> LeavingGone(MovedOut(s.w)) == s.w
  {}

  lemma WokenParks(h: HalfState)
    requires h.parked != []
    ensures var h' := WokenOne(h); |h'.parked| == |h.parked| - 1 && h'.leaving == h.leaving
  {}
}
