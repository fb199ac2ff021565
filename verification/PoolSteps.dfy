/** Every step of the pool keeps its invariant. */
module PoolSteps {
  import opened TicketArithmetic
  import SR = SubmissionRing
  import opened ThreadPool
  import opened PoolInvariant

  lemma InitInv(threads: nat, cap: nat)
    requires IsPow2(cap) && 0 < threads <= cap
    ensures Inv(Init(threads, cap), NOWHERE)
  {
    SR.InitInv(threads, cap);
    assert RanAndLive(Init(threads, cap).errands, map[]) == {};
  }

  // ----- workers

  lemma RunCounts(s: Pool, p: Places, w: nat)
    requires Inv(s, p) && Enabled(s, Run(w))
    ensures var s' := Apply(s, Run(w)); CountsOk(s'.submitted, s'.ran, multiset(s'.resumed), s'.errands, p.at)
  {
    hide Slot, SR.Inv, OrderOk, ListsOk, ErrandsOk, ProgressOk, ShutdownOk;
    var s' := Apply(s, Run(w));
    var t := Held(s.ring, w);
    assert Recorded(p, t, InHand(w));
    forall u | u in p.at && p.at[u] == InHand(w) ensures u == t {
      assert IsAt(s.ring, s.main, p, u, InHand(w));
    }
    assert RanAndLive(s'.errands, p.at) == RanAndLive(s.errands, p.at) + {t};
    assert t !in RanAndLive(s.errands, p.at);
    assert multiset(RanAndLive(s'.errands, p.at)) == multiset(RanAndLive(s.errands, p.at)) + multiset{t};
  }

  lemma SamePosters(ticks: nat, errands: seq<Errand>, errands': seq<Errand>, m: Main, p: Places)
    requires ProgressOk(ticks, errands, m, p)
    requires |errands'| == |errands|
    requires forall w: nat :: w < |errands| && errands[w].ToPost? ==> errands'[w].ToPost?
    ensures ProgressOk(ticks, errands', m, p)
  {
    if w: nat :| w < |errands| && errands[w].ToPost? {
      assert errands'[w].ToPost?;
    }
  }

  lemma RunInv(s: Pool, p: Places, w: nat)
    requires Inv(s, p) && Enabled(s, Run(w))
    ensures Inv(Apply(s, Run(w)), p)
  {
    hide Slot, SR.Inv, OrderOk, ListsOk, PlacesOk, CountsOk, ShutdownOk, ProgressOk;
    RunCounts(s, p, w);
    SamePosters(s.ticks, s.errands, Apply(s, Run(w)).errands, s.main, p);
  }

  lemma SameRunners(s: Pool, p: Places, errands': seq<Errand>)
    requires CountsOk(s.submitted, s.ran, multiset(s.resumed), s.errands, p.at)
    requires |errands'| == |s.errands|
    requires forall w: nat :: w < |errands'| ==> errands'[w].ToRun? == s.errands[w].ToRun?
    ensures CountsOk(s.submitted, s.ran, multiset(s.resumed), errands', p.at)
  {
    assert RanAndLive(errands', p.at) == RanAndLive(s.errands, p.at);
  }

  lemma LoadInv(s: Pool, p: Places, w: nat)
    requires Inv(s, p) && Enabled(s, Load(w))
    ensures Inv(Apply(s, Load(w)), p)
  {
    hide Slot, SR.Inv, OrderOk, ListsOk, PlacesOk, CountsOk, ShutdownOk, ProgressOk;
    var s' := Apply(s, Load(w));
    SameRunners(s, p, s'.errands);
    SamePosters(s.ticks, s.errands, s'.errands, s.main, p);
  }

  /** Lists do not notice a change to the next_ field of a task in nobody's list. */
  lemma ListsFrame(next: map<nat, Ptr>, next': map<nat, Ptr>, s: Pool, p: Places)
    requires ListsOk(next, s.cqHead, s.backoffHead, s.backoffTail, s.main, p)
    requires forall t :: t in p.stack || t in p.todo || t in p.batch || t in p.backoff ==>
               t in next && t in next' && next'[t] == next[t]
    ensures ListsOk(next', s.cqHead, s.backoffHead, s.backoffTail, s.main, p)
  {
    ChainFrame(next, next', s.cqHead, p.stack);
    ChainFrame(next, next', TodoPtr(s.main), p.todo);
    ChainFrame(next, next', BatchPtr(s.main), p.batch);
    ChainFrame(next, next', BackoffPtr(s.main, s.backoffHead), p.backoff);
  }

  lemma ChainFrame(next: map<nat, Ptr>, next': map<nat, Ptr>, head: Ptr, xs: seq<nat>)
    requires Chain(next, head, xs)
    requires forall t :: t in xs ==> t in next && t in next' && next'[t] == next[t]
    ensures Chain(next', head, xs)
  {}

  lemma LinkInv(s: Pool, p: Places, w: nat)
    requires Inv(s, p) && Enabled(s, Link(w))
    ensures Inv(Apply(s, Link(w)), p)
  {
    hide Slot, SR.Inv, OrderOk, CountsOk, ShutdownOk, ProgressOk, ListsOk;
    var s', t := Apply(s, Link(w)), Held(s.ring, w);
    SameRunners(s, p, s'.errands);
    SamePosters(s.ticks, s.errands, s'.errands, s.main, p);
    assert Recorded(p, t, InHand(w));
    assert s'.next.Keys == s.next.Keys;
    ListsFrame(s.next, s'.next, s, p);
  }

  lemma PostInv(s: Pool, p: Places, w: nat)
    requires Inv(s, p) && Enabled(s, Post(w))
    ensures Inv(Apply(s, Post(w)), p)
  {
    hide Slot, SR.Inv, OrderOk, ListsOk, PlacesOk, CountsOk, ShutdownOk;
    SameRunners(s, p, Apply(s, Post(w)).errands);
  }

  lemma SwapFailInv(s: Pool, p: Places, w: nat, spurious: bool)
    requires Inv(s, p) && Enabled(s, Swap(w, spurious))
    requires spurious || s.cqHead != s.errands[w].head
    ensures Inv(Apply(s, Swap(w, spurious)), p)
  {
    hide Slot, SR.Inv, OrderOk, ListsOk, PlacesOk, CountsOk, ShutdownOk, ProgressOk;
    var s' := Apply(s, Swap(w, spurious));
    SameRunners(s, p, s'.errands);
    SamePosters(s.ticks, s.errands, s'.errands, s.main, p);
  }

  lemma ChainPush(next: map<nat, Ptr>, head: Ptr, xs: seq<nat>, t: nat)
    requires Chain(next, head, xs) && t in next && next[t] == head && t !in xs
    ensures Chain(next, To(t), [t] + xs)
  {
    var ys := [t] + xs;
    forall i: nat | i < |ys| ensures ys[i] in next && next[ys[i]] == PtrAt(ys, i + 1) {
      if i > 0 { assert ys[i] == xs[i - 1]; }
    }
    forall i: nat, j: nat | i < j < |ys| ensures ys[i] != ys[j] {
      assert ys[j] == xs[j - 1];
    }
  }

  lemma SwapPlaces(s: Pool, p: Places, w: nat)
    requires Inv(s, p) && Enabled(s, Swap(w, false)) && s.cqHead == s.errands[w].head
    ensures var s', p' := Apply(s, Swap(w, false)), NextPlaces(s, p, Swap(w, false));
            && PlacesOk(s'.ring, s'.main, s'.next.Keys, p')
            && ListsOk(s'.next, s'.cqHead, s'.backoffHead, s'.backoffTail, s'.main, p')
            && ErrandsOk(s'.ring, s'.errands, s'.next)
  {
    hide Slot, SR.Inv, OrderOk, CountsOk, ShutdownOk, ProgressOk, Chain, BackoffOk;
    var s', p', t := Apply(s, Swap(w, false)), NextPlaces(s, p, Swap(w, false)), Held(s.ring, w);
    assert Recorded(p, t, InHand(w));
    ChainPush(s.next, s.cqHead, p.stack, t);
    forall v: nat ensures Holds(s'.ring, v) <==> Holds(s.ring, v) && v != w {}
    forall u | u in p'.at ensures IsAt(s'.ring, s'.main, p', u, p'.at[u]) {
      assert IsAt(s.ring, s.main, p, u, p.at[u]);
    }
    assert p'.at.Keys == p.at.Keys;
  }

  lemma SwapCounts(s: Pool, p: Places, w: nat, e: Errand)
    requires Inv(s, p) && Holds(s.ring, w) && !s.errands[w].ToRun? && !e.ToRun?
    ensures CountsOk(s.submitted, s.ran, multiset(s.resumed), s.errands[w := e], p.at[Held(s.ring, w) := Completed])
  {
    hide Slot, SR.Inv, OrderOk, ShutdownOk, ListsOk, ErrandsOk, ProgressOk;
    var t := Held(s.ring, w);
    var errands', at' := s.errands[w := e], p.at[t := Completed];
    assert Recorded(p, t, InHand(w));
    assert at'.Keys == p.at.Keys;
    forall u ensures u in RanAndLive(errands', at') <==> u in RanAndLive(s.errands, p.at) {
      if u in p.at { assert IsAt(s.ring, s.main, p, u, p.at[u]); }
    }
    assert RanAndLive(errands', at') == RanAndLive(s.errands, p.at);
  }

  lemma SwapProgress(s: Pool, p: Places, p': Places, w: nat, t: nat)
    requires ProgressOk(s.ticks, s.errands, s.main, p) && w < |s.errands| && Chain(s.next, s.cqHead, p.stack)
    requires !s.errands[w].ToPost? && p'.backoff == p.backoff && Recorded(p', t, Completed)
    ensures ProgressOk(s.ticks, s.errands[w := if s.cqHead.Null? then ToPost else Free], s.main, p')
  {
    var errands' := s.errands[w := if s.cqHead.Null? then ToPost else Free];
    if s.cqHead.Null? {
      assert errands'[w].ToPost?;
    } else {
      // the stack was not empty, so somebody is already responsible for it
      assert p.stack != [];
      SamePosters(s.ticks, s.errands, errands', s.main, p);
    }
    assert SomethingInFlight(p'.at);
  }

  lemma LeaveRing(r: SR.Ring, m: Main, p: Places, w: nat)
    requires SR.WellFormed(r) && Holds(r, w) && ShutdownOk(r, m, p) && PlacesOk(r, m, p.at.Keys, p)
    ensures !InShutdown(m) && NoExits(SR.Apply(r, SR.Finish(w)))
  {
    assert Recorded(p, Held(r, w), InHand(w));
    var r' := SR.Apply(r, SR.Finish(w));
    assert forall a: nat :: ExitIn(r', a) ==> ExitIn(r, a);
    assert forall v: nat :: TookExit(r', v) ==> TookExit(r, v);
  }

  lemma SwapOrder(completed: seq<nat>, resumed: seq<nat>, p: Places, p': Places, t: nat)
    requires OrderOk(completed, resumed, p) && p'.stack == [t] + p.stack && p'.todo == p.todo && p'.batch == p.batch
    ensures OrderOk(completed + [t], resumed, p')
  {
    assert p'.stack[1..] == p.stack;
  }

  lemma SwapInv(s: Pool, p: Places, w: nat)
    requires Inv(s, p) && Enabled(s, Swap(w, false)) && s.cqHead == s.errands[w].head
    ensures Inv(Apply(s, Swap(w, false)), NextPlaces(s, p, Swap(w, false)))
  {
    SwapPlaces(s, p, w);
    assert Recorded(p, Held(s.ring, w), InHand(w));
    SwapCounts(s, p, w, if s.cqHead.Null? then ToPost else Free);
    SwapProgress(s, p, NextPlaces(s, p, Swap(w, false)), w, Held(s.ring, w));
    LeaveRing(s.ring, s.main, p, w);
    SwapOrder(s.completed, s.resumed, p, NextPlaces(s, p, Swap(w, false)), Held(s.ring, w));
    SR.StepInv(s.ring, SR.Finish(w));
    hide Slot, SR.Inv, OrderOk, CountsOk, ProgressOk, ListsOk, PlacesOk, ErrandsOk, SR.Apply;
  }

  // ----- inside the ring

  /** Ring steps that move no item: the rest of a push, and a worker that finds nothing. */
  predicate MovesNoItem(rs: SR.Step) {
    !rs.Push? && !rs.PollHit? && !rs.Finish? && !rs.Exit?
  }

  lemma QuietStep(r: SR.Ring, rs: SR.Step)
    requires SR.WellFormed(r) && SR.Enabled(r, rs) && MovesNoItem(rs)
    ensures var r' := SR.Apply(r, rs);
            && r'.cells == r.cells && SR.Pushes(r') == SR.Pushes(r) && r'.cap == r.cap
            && |r'.workers| == |r.workers|
            && (r.producer.Ready? ==> r'.producer.Ready?)
            && (forall w: nat :: Holds(r', w) <==> Holds(r, w))
            && (forall w: nat :: Holds(r, w) ==> Held(r', w) == Held(r, w))
            && (forall w: nat :: TookExit(r', w) <==> TookExit(r, w))
            && (forall w: nat :: w < |r.workers| && r.workers[w].Exited? ==> r'.workers[w].Exited?)
            && (forall w: nat :: w < |r.workers| && r.workers[w].Idle? && !(rs.Take? && rs.w == w) ==> r'.workers[w].Idle?)
  {
    hide Slot;
  }

  lemma QuietPlaces(r: SR.Ring, r': SR.Ring, m: Main, live: set<nat>, p: Places)
    requires PlacesOk(r, m, live, p) && r'.cells == r.cells
    requires forall w: nat :: Holds(r', w) <==> Holds(r, w)
    requires forall w: nat :: Holds(r, w) ==> Held(r', w) == Held(r, w)
    ensures PlacesOk(r', m, live, p)
  {
    forall t | t in p.at ensures IsAt(r', m, p, t, p.at[t]) {
      assert IsAt(r, m, p, t, p.at[t]);
    }
    forall a: nat | JobIn(r', a) ensures Recorded(p, r'.cells[a].item.task, InSlot(a)) {
      assert JobIn(r, a);
    }
  }

  lemma QuietShutdown(r: SR.Ring, r': SR.Ring, m: Main, p: Places)
    requires ShutdownOk(r, m, p)
    requires r'.cells == r.cells && SR.Pushes(r') == SR.Pushes(r) && r'.cap == r.cap && |r'.workers| == |r.workers|
    requires r.producer.Ready? ==> r'.producer.Ready?
    requires forall w: nat :: TookExit(r', w) <==> TookExit(r, w)
    requires forall w: nat :: w < |r.workers| && r.workers[w].Exited? ==> r'.workers[w].Exited?
    ensures ShutdownOk(r', m, p)
  {
    hide Slot;
    assert Leavers(r') == Leavers(r);
    assert SR.Inhabited(r') == SR.Inhabited(r);
    assert forall a: nat :: ExitIn(r', a) <==> ExitIn(r, a);
    if InShutdown(m) { SameExitTickets(r, r', m); }
  }

  lemma QuietInv(s: Pool, p: Places, rs: SR.Step)
    requires Inv(s, p) && Enabled(s, InRing(rs)) && MovesNoItem(rs)
    ensures Inv(Apply(s, InRing(rs)), p)
  {
    var r' := SR.Apply(s.ring, rs);
    SR.StepInv(s.ring, rs);
    QuietStep(s.ring, rs);
    QuietPlaces(s.ring, r', s.main, s.next.Keys, p);
    QuietShutdown(s.ring, r', s.main, p);
    hide Slot, SR.Inv, OrderOk, CountsOk, ProgressOk, ListsOk, PlacesOk, ShutdownOk, SR.Apply;
  }

  lemma PollHitPlaces(s: Pool, p: Places, w: nat, a: nat, t: nat)
    requires Inv(s, p) && Enabled(s, InRing(SR.PollHit(w)))
    requires a == SR.SlotOf(s.ring, w) && s.ring.cells[a] == SR.Full(SR.Job(t))
    ensures var s', p' := Apply(s, InRing(SR.PollHit(w))), NextPlaces(s, p, InRing(SR.PollHit(w)));
            && PlacesOk(s'.ring, s'.main, s'.next.Keys, p')
            && ErrandsOk(s'.ring, s'.errands, s'.next)
            && NoExits(s'.ring) && !InShutdown(s.main)
  {
    hide Slot, SR.Inv, OrderOk, CountsOk, ProgressOk, ListsOk;
    var s', p' := Apply(s, InRing(SR.PollHit(w))), NextPlaces(s, p, InRing(SR.PollHit(w)));
    assert JobIn(s.ring, a) && Recorded(p, t, InSlot(a));
    assert s'.ring.cells == s.ring.cells[a := SR.Empty];
    forall v: nat ensures Holds(s'.ring, v) <==> Holds(s.ring, v) || v == w {}
    forall u | u in p'.at ensures IsAt(s'.ring, s'.main, p', u, p'.at[u]) {
      assert IsAt(s.ring, s.main, p, u, p.at[u]);
    }
    forall b: nat | JobIn(s'.ring, b) ensures Recorded(p', s'.ring.cells[b].item.task, InSlot(b)) {
      assert JobIn(s.ring, b);
    }
    assert p'.at.Keys == p.at.Keys;
    assert forall b: nat :: ExitIn(s'.ring, b) ==> ExitIn(s.ring, b);
    assert forall v: nat :: TookExit(s'.ring, v) ==> TookExit(s.ring, v);
  }

  lemma PollHitRan(s: Pool, p: Places, w: nat, a: nat, t: nat)
    requires Inv(s, p) && Enabled(s, InRing(SR.PollHit(w)))
    requires a == SR.SlotOf(s.ring, w) && s.ring.cells[a] == SR.Full(SR.Job(t))
    ensures var s', p' := Apply(s, InRing(SR.PollHit(w))), NextPlaces(s, p, InRing(SR.PollHit(w)));
            RanAndLive(s'.errands, p'.at) == RanAndLive(s.errands, p.at)
  {
    hide Slot, SR.Inv, OrderOk, ListsOk, ShutdownOk, CountsOk, ProgressOk;
    var s', p' := Apply(s, InRing(SR.PollHit(w))), NextPlaces(s, p, InRing(SR.PollHit(w)));
    assert JobIn(s.ring, a) && Recorded(p, t, InSlot(a));
    forall u ensures u in RanAndLive(s'.errands, p'.at) <==> u in RanAndLive(s.errands, p.at) {
      if u in p.at { assert IsAt(s.ring, s.main, p, u, p.at[u]); }
    }
  }

  lemma PollHitRest(s: Pool, p: Places, w: nat, a: nat, t: nat)
    requires Inv(s, p) && Enabled(s, InRing(SR.PollHit(w)))
    requires a == SR.SlotOf(s.ring, w) && s.ring.cells[a] == SR.Full(SR.Job(t))
    ensures var s', p' := Apply(s, InRing(SR.PollHit(w))), NextPlaces(s, p, InRing(SR.PollHit(w)));
            && CountsOk(s'.submitted, s'.ran, multiset(s'.resumed), s'.errands, p'.at)
            && ProgressOk(s'.ticks, s'.errands, s'.main, p')
  {
    hide Slot, SR.Inv, OrderOk, ListsOk, ShutdownOk;
    var s', p' := Apply(s, InRing(SR.PollHit(w))), NextPlaces(s, p, InRing(SR.PollHit(w)));
    assert JobIn(s.ring, a) && Recorded(p, t, InSlot(a));
    assert p'.at.Keys == p.at.Keys;
    PollHitRan(s, p, w, a, t);
    SamePosters(s.ticks, s.errands, s'.errands, s.main, p);
    assert p'.at[t] == InHand(w);
  }

  lemma PollHitInv(s: Pool, p: Places, w: nat, t: nat)
    requires Inv(s, p) && Enabled(s, InRing(SR.PollHit(w)))
    requires s.ring.cells[SR.SlotOf(s.ring, w)] == SR.Full(SR.Job(t))
    ensures Inv(Apply(s, InRing(SR.PollHit(w))), NextPlaces(s, p, InRing(SR.PollHit(w))))
  {
    var a := SR.SlotOf(s.ring, w);
    PollHitPlaces(s, p, w, a, t);
    PollHitRest(s, p, w, a, t);
    SR.StepInv(s.ring, SR.PollHit(w));
    hide Slot, SR.Inv, OrderOk, CountsOk, ProgressOk, PlacesOk, ErrandsOk, NoExits, Chain, BackoffOk;
  }

  /** A worker takes an exit request, or leaves with it. */
  lemma ExitStep(r: SR.Ring, rs: SR.Step, m: Main)
    requires SR.WellFormed(r) && SR.Enabled(r, rs) && InShutdown(m) && StoppingOk(r, m)
    requires rs.Exit? || (rs.PollHit? && r.cells[SR.SlotOf(r, rs.w)].item.ExitRequest?)
    ensures StoppingOk(SR.Apply(r, rs), m)
  {
    hide Slot;
    var r' := SR.Apply(r, rs);
    ExitStepCounts(r, rs);
    assert !r.workers[rs.w].Exited? && !m.Closed?;
    hide SR.Apply, SR.Enabled, Leavers, SR.Inhabited, ExitIn, SR.Pushes;
    SameExitTickets(r, r', m);
  }

  lemma ExitStepCounts(r: SR.Ring, rs: SR.Step)
    requires SR.WellFormed(r) && SR.Enabled(r, rs)
    requires rs.Exit? || (rs.PollHit? && r.cells[SR.SlotOf(r, rs.w)].item.ExitRequest?)
    ensures var r' := SR.Apply(r, rs);
            && |SR.Inhabited(r')| + |Leavers(r')| == |SR.Inhabited(r)| + |Leavers(r)|
            && (forall a: nat :: ExitIn(r', a) ==> ExitIn(r, a))
            && SR.Pushes(r') == SR.Pushes(r) && r'.cap == r.cap && |r'.workers| == |r.workers|
  {
    hide Slot;
    var r' := SR.Apply(r, rs);
    if rs.Exit? {
      assert Leavers(r') == Leavers(r);
      assert SR.Inhabited(r') == SR.Inhabited(r);
    } else {
      assert Leavers(r') == Leavers(r) + {rs.w};
      assert SR.Inhabited(r') == SR.Inhabited(r) - {SR.SlotOf(r, rs.w)};
    }
  }

  lemma SameExitTickets(r: SR.Ring, r': SR.Ring, m: Main)
    requires SR.Pushes(r') == SR.Pushes(r) && r'.cap == r.cap && |r'.workers| == |r.workers|
    requires forall a: nat :: ExitIn(r', a) ==> ExitIn(r, a)
    requires forall a: nat :: ExitIn(r, a) ==> exists k: nat :: ExitTicket(r, ExitsPushed(r, m), a, k)
    ensures forall a: nat :: ExitIn(r', a) ==> exists k: nat :: ExitTicket(r', ExitsPushed(r', m), a, k)
  {
    hide Slot, SR.Pushes;
    forall a: nat | ExitIn(r', a) ensures exists k: nat :: ExitTicket(r', ExitsPushed(r', m), a, k) {
      var k: nat :| ExitTicket(r, ExitsPushed(r, m), a, k);
      assert ExitTicket(r', ExitsPushed(r', m), a, k);
    }
  }

  lemma ExitStepInv(s: Pool, p: Places, rs: SR.Step)
    requires Inv(s, p) && Enabled(s, InRing(rs))
    requires rs.Exit? || (rs.PollHit? && s.ring.cells[SR.SlotOf(s.ring, rs.w)].item.ExitRequest?)
    ensures Inv(Apply(s, InRing(rs)), p)
  {
    hide Slot, SR.Inv, OrderOk, CountsOk, ProgressOk, ListsOk;
    if rs.Exit? { assert TookExit(s.ring, rs.w); } else { assert ExitIn(s.ring, SR.SlotOf(s.ring, rs.w)); }
    assert p == NOWHERE;
    ExitStep(s.ring, rs, s.main);
    SR.StepInv(s.ring, rs);
    var r' := SR.Apply(s.ring, rs);
    assert forall w: nat :: !Holds(r', w);
    assert forall a: nat :: JobIn(r', a) ==> JobIn(s.ring, a);
  }

  // ----- main thread

  lemma SubmitCounts(s: Pool, p: Places, t: nat)
    requires CountsOk(s.submitted, s.ran, multiset(s.resumed), s.errands, p.at) && t !in p.at
    ensures CountsOk(s.submitted + multiset{t}, s.ran, multiset(s.resumed), s.errands, p.at[t := Entering])
  {
    var at' := p.at[t := Entering];
    assert RanAndLive(s.errands, at') == RanAndLive(s.errands, p.at);
    assert at'.Keys == p.at.Keys + {t};
    assert multiset(at'.Keys) == multiset(p.at.Keys) + multiset{t};
  }

  lemma SubmitProgress(s: Pool, p: Places, t: nat)
    requires ProgressOk(s.ticks, s.errands, s.main, p) && s.main.User? && t !in p.at
    ensures ProgressOk(s.ticks, s.errands, Submitting(t, s.main.caller), p.(at := p.at[t := Entering]))
  {
    if u :| u in p.at && !p.at[u].Entering? && !p.at[u].Backoff? {
      assert p.at[t := Entering][u] == p.at[u];
    }
  }

  lemma ListedAreLive(r: SR.Ring, m: Main, live: set<nat>, p: Places)
    requires PlacesOk(r, m, live, p)
    ensures forall u :: u in p.stack || u in p.todo || u in p.batch || u in p.backoff ==> u in live
  {}

  lemma SubmitInv(s: Pool, p: Places, t: nat)
    requires Inv(s, p) && Enabled(s, Submit(t))
    ensures Inv(Apply(s, Submit(t)), NextPlaces(s, p, Submit(t)))
  {
    var s', p' := Apply(s, Submit(t)), NextPlaces(s, p, Submit(t));
    hide Slot, SR.Inv, OrderOk, ErrandsOk, PlacesOk, CountsOk, ProgressOk, NoExits, Chain;
    assert s' == s.(next := s.next[t := Null], submitted := s.submitted + multiset{t}, main := Submitting(t, s.main.caller));
    assert p' == p.(at := p.at[t := Entering]);
    assert t !in p.at by { assert p.at.Keys == s.next.Keys; }
    ListedAreLive(s.ring, s.main, s.next.Keys, p);
    ListsFrame(s.next, s'.next, s, p);
    assert ListsOk(s'.next, s'.cqHead, s'.backoffHead, s'.backoffTail, s'.main, p');
    assert OrderOk(s'.completed, s'.resumed, p') && ShutdownOk(s'.ring, s'.main, p');
    SubmitPlaces(s, p, t);
    hide Apply, NextPlaces, ListsOk, ShutdownOk;
    SubmitErrands(s, t);
    SubmitCounts(s, p, t);
    SubmitProgress(s, p, t);
  }

  lemma SubmitPlaces(s: Pool, p: Places, t: nat)
    requires Inv(s, p) && Enabled(s, Submit(t))
    ensures var s', p' := Apply(s, Submit(t)), NextPlaces(s, p, Submit(t));
            PlacesOk(s'.ring, s'.main, s'.next.Keys, p')
  {
    hide Slot, SR.Inv, OrderOk, ErrandsOk, Chain, BackoffOk, CountsOk, ProgressOk, ShutdownOk;
    var s', p' := Apply(s, Submit(t)), NextPlaces(s, p, Submit(t));
    forall u | u in p'.at ensures IsAt(s'.ring, s'.main, p', u, p'.at[u]) {
      if u != t { assert IsAt(s.ring, s.main, p, u, p.at[u]); }
    }
  }

  lemma SubmitErrands(s: Pool, t: nat)
    requires ErrandsOk(s.ring, s.errands, s.next) && t !in s.next
    ensures ErrandsOk(s.ring, s.errands, s.next[t := Null])
  {}

  /** The task in slot a of a full ring is in flight. */
  lemma FullRingInFlight(s: Pool, p: Places)
    requires Inv(s, p) && RingFull(s) && !InShutdown(s.main)
    ensures SomethingInFlight(p.at)
  {
    hide Slot, SR.Inv, OrderOk, ErrandsOk, Chain, BackoffOk, CountsOk, ProgressOk;
    var a := SR.TailSlot(s.ring);
    assert !ExitIn(s.ring, a);
    assert JobIn(s.ring, a);
    assert Recorded(p, s.ring.cells[a].item.task, InSlot(a));
  }

  lemma PushNewFullInv(s: Pool, p: Places)
    requires Inv(s, p) && Enabled(s, PushNew) && RingFull(s)
    ensures Inv(Apply(s, PushNew), p)
  {
    hide Slot, SR.Inv, OrderOk, ErrandsOk, Chain, CountsOk;
    FullRingInFlight(s, p);
    forall u | u in p.at ensures IsAt(s.ring, Apply(s, PushNew).main, p, u, p.at[u]) {
      assert IsAt(s.ring, s.main, p, u, p.at[u]);
    }
  }

  /** Pushing task t, wherever the main thread has it from, moves it to the slot. */
  lemma PushPlaces(r: SR.Ring, m: Main, m': Main, live: set<nat>, p: Places, p': Places, t: nat)
    requires SR.WellFormed(r) && SR.Enabled(r, SR.Push(SR.Job(t)))
    requires PlacesOk(r, m, live, p) && t in p.at
    requires p'.at == p.at[t := InSlot(SR.TailSlot(r))]
    requires p'.stack == p.stack && p'.todo == p.todo && p'.batch == p.batch
    requires !m'.Submitting? && !m'.Stashing?
    requires || (Recorded(p, t, Entering) && p'.backoff == p.backoff && m.Submitting? && m.task == t)
             || (Recorded(p, t, Backoff) && !m.Submitting? && !m.Stashing?
                 && (forall u :: u in p'.backoff <==> u in p.backoff && u != t))
    ensures PlacesOk(SR.Apply(r, SR.Push(SR.Job(t))), m', live, p')
  {
    hide Slot;
    var r', a := SR.Apply(r, SR.Push(SR.Job(t))), SR.TailSlot(r);
    forall u | u in p'.at ensures IsAt(r', m', p', u, p'.at[u]) {
      assert IsAt(r, m, p, u, p.at[u]);
    }
    forall b: nat | JobIn(r', b) ensures Recorded(p', r'.cells[b].item.task, InSlot(b)) {
      if b != a { assert JobIn(r, b); }
    }
    assert p'.at.Keys == p.at.Keys;
  }

  lemma PushOthers(s: Pool, p: Places, at': map<nat, Place>, t: nat)
    requires Inv(s, p) && s.ring.producer.Ready? && !RingFull(s) && !InShutdown(s.main)
    requires t in p.at && (p.at[t].Entering? || p.at[t].Backoff?)
    requires at' == p.at[t := InSlot(SR.TailSlot(s.ring))]
    ensures CountsOk(s.submitted, s.ran, multiset(s.resumed), s.errands, at')
    ensures SomethingInFlight(at')
    ensures var r' := SR.Apply(s.ring, SR.Push(SR.Job(t)));
            SR.Inv(r') && NoExits(r') && ErrandsOk(r', s.errands, s.next)
  {
    var r' := SR.Apply(s.ring, SR.Push(SR.Job(t)));
    SR.StepInv(s.ring, SR.Push(SR.Job(t)));
    hide Slot, SR.Inv, OrderOk, Chain, BackoffOk, ProgressOk;
    assert RanAndLive(s.errands, at') == RanAndLive(s.errands, p.at);
    assert at'.Keys == p.at.Keys;
    assert at'[t].InSlot?;
    assert forall a: nat :: ExitIn(r', a) ==> ExitIn(s.ring, a);
    assert forall w: nat :: TookExit(r', w) ==> TookExit(s.ring, w);
  }

  lemma PushNewInv(s: Pool, p: Places)
    requires Inv(s, p) && Enabled(s, PushNew) && !RingFull(s)
    ensures Inv(Apply(s, PushNew), NextPlaces(s, p, PushNew))
  {
    var s', p', t := Apply(s, PushNew), NextPlaces(s, p, PushNew), s.main.task;
    assert Recorded(p, t, Entering);
    hide Slot, SR.Inv, OrderOk, ErrandsOk, PlacesOk, CountsOk, NoExits, SR.Apply, Chain;
    assert s' == s.(ring := SR.Apply(s.ring, SR.Push(SR.Job(t))), main := User(s.main.caller));
    assert p' == p.(at := p.at[t := InSlot(SR.TailSlot(s.ring))]);
    PushOthers(s, p, p'.at, t);
    assert ListsOk(s'.next, s'.cqHead, s'.backoffHead, s'.backoffTail, s'.main, p');
    assert OrderOk(s'.completed, s'.resumed, p') && ProgressOk(s'.ticks, s'.errands, s'.main, p');
    hide Apply, NextPlaces, ListsOk, ProgressOk;
    PushPlaces(s.ring, s.main, s'.main, s.next.Keys, p, p', t);
  }

  lemma ReadOnlyLists(s: Pool, p: Places, step: Step)
    requires WellFormed(s) && Enabled(s, step)
    requires step.Tick? || step.Return? || step.Check? || step.Walk?
    requires ListsOk(s.next, s.cqHead, s.backoffHead, s.backoffTail, s.main, p)
    ensures var s' := Apply(s, step); ListsOk(s'.next, s'.cqHead, s'.backoffHead, s'.backoffTail, s'.main, p)
  {
    hide Slot;
  }

  lemma ReadOnlyProgress(s: Pool, p: Places, step: Step)
    requires WellFormed(s) && Enabled(s, step)
    requires step.Tick? || step.Return? || step.Check? || step.Walk?
    requires ListsOk(s.next, s.cqHead, s.backoffHead, s.backoffTail, s.main, p)
    requires ProgressOk(s.ticks, s.errands, s.main, p) && ShutdownOk(s.ring, s.main, p)
    ensures var s' := Apply(s, step);
            && s' == s.(main := s'.main, ticks := s'.ticks, backoffHead := s'.backoffHead, backoffTail := s'.backoffTail)
            && !s'.main.Submitting? && !s'.main.Stashing? && !s.main.Submitting? && !s.main.Stashing?
            && ProgressOk(s'.ticks, s'.errands, s'.main, p) && ShutdownOk(s'.ring, s'.main, p)
  {
    hide Slot, NoExits;
  }

  lemma ReadOnlyInv(s: Pool, p: Places, step: Step)
    requires Inv(s, p) && Enabled(s, step)
    requires step.Tick? || step.Return? || step.Check? || step.Walk?
    ensures Inv(Apply(s, step), p)
  {
    hide Slot, SR.Inv, OrderOk, ErrandsOk, CountsOk, Apply, ListsOk, ShutdownOk, ProgressOk, PlacesOk;
    ReadOnlyLists(s, p, step);
    ReadOnlyProgress(s, p, step);
    MoveMain(s.ring, s.main, Apply(s, step).main, s.next.Keys, p);
  }

  lemma StashChain(next: map<nat, Ptr>, head: Ptr, tail: TailPtr, xs: seq<nat>, t: nat)
    requires Chain(next, head, xs) && t in next && t !in xs
    requires tail == if xs == [] then AtHead else AtNext(xs[|xs| - 1])
    ensures tail.AtNext? ==> tail.task in next
    ensures var next1 := next[t := Null];
            if tail.AtHead? then Chain(next1, To(t), xs + [t])
            else Chain(next1[tail.task := To(t)], head, xs + [t])
  {
    var ys := xs + [t];
    if xs != [] {
      var next2 := next[t := Null][tail.task := To(t)];
      forall i: nat | i < |ys| ensures ys[i] in next2 && next2[ys[i]] == PtrAt(ys, i + 1) {
        if i < |xs| - 1 { assert xs[i] != xs[|xs| - 1]; }
      }
    }
  }

  /** Stashing writes no next_ field but those of the stashed task and of the backoff list. */
  lemma StashWrites(s: Pool, p: Places, u: nat)
    requires Inv(s, p) && Enabled(s, Stash) && u in p.at && !p.at[u].Entering? && !p.at[u].Backoff?
    ensures u in s.next && Apply(s, Stash).next[u] == s.next[u]
  {
    hide Slot, SR.Inv, OrderOk, CountsOk, ProgressOk, ShutdownOk;
    assert u in p.at.Keys;
    assert Recorded(p, s.main.task, Entering);
    if s.backoffTail.AtNext? { assert Recorded(p, s.backoffTail.task, Backoff); }
  }

  lemma StashFrames(s: Pool, p: Places)
    requires Inv(s, p) && Enabled(s, Stash)
    ensures forall u :: u in p.stack || u in p.batch ==> u in s.next && Apply(s, Stash).next[u] == s.next[u]
  {
    forall u | u in p.stack || u in p.batch ensures u in s.next && Apply(s, Stash).next[u] == s.next[u] {
      assert Recorded(p, u, Completed) || Recorded(p, u, InBatch);
      hide Slot, SR.Inv, ListsOk, PlacesOk, ErrandsOk, CountsOk, ProgressOk, ShutdownOk, OrderOk;
      StashWrites(s, p, u);
    }
  }

  lemma StashLists(s: Pool, p: Places)
    requires Inv(s, p) && Enabled(s, Stash)
    ensures var s', p' := Apply(s, Stash), NextPlaces(s, p, Stash);
            ListsOk(s'.next, s'.cqHead, s'.backoffHead, s'.backoffTail, s'.main, p')
  {
    var s', t := Apply(s, Stash), s.main.task;
    assert Recorded(p, t, Entering) && t in p.at.Keys && t !in p.backoff;
    StashFrames(s, p);
    hide Slot, SR.Inv, OrderOk, PlacesOk, ErrandsOk, CountsOk, ProgressOk, ShutdownOk, Chain;
    StashChain(s.next, s.backoffHead, s.backoffTail, p.backoff, t);
    ChainFrame(s.next, s'.next, s.cqHead, p.stack);
    ChainFrame(s.next, s'.next, BatchPtr(s.main), p.batch);
    ChainFrame(s.next, s'.next, Null, p.todo);
  }

  lemma StashErrands(s: Pool, p: Places)
    requires Inv(s, p) && Enabled(s, Stash)
    ensures ErrandsOk(s.ring, s.errands, Apply(s, Stash).next)
    ensures Apply(s, Stash).next.Keys == s.next.Keys
  {
    hide Slot, SR.Inv, OrderOk, CountsOk, ProgressOk, ShutdownOk;
    forall w: nat | Holds(s.ring, w)
      ensures Held(s.ring, w) in s.next && Apply(s, Stash).next[Held(s.ring, w)] == s.next[Held(s.ring, w)]
    {
      assert Recorded(p, Held(s.ring, w), InHand(w));
      StashWrites(s, p, Held(s.ring, w));
    }
  }

  lemma StashPlaces(r: SR.Ring, m: Main, live: set<nat>, p: Places, t: nat)
    requires PlacesOk(r, m, live, p) && m.Stashing? && m.task == t
    ensures PlacesOk(r, User(m.caller), live, p.(at := p.at[t := Backoff], backoff := p.backoff + [t]))
  {
    var p' := p.(at := p.at[t := Backoff], backoff := p.backoff + [t]);
    assert Recorded(p, t, Entering);
    forall u | u in p'.at ensures IsAt(r, User(m.caller), p', u, p'.at[u]) {
      assert IsAt(r, m, p, u, p.at[u]);
    }
    assert p'.at.Keys == p.at.Keys;
  }

  lemma StashRest(s: Pool, p: Places, t: nat)
    requires CountsOk(s.submitted, s.ran, multiset(s.resumed), s.errands, p.at)
    requires ProgressOk(s.ticks, s.errands, s.main, p) && s.main.Stashing? && Recorded(p, t, Entering)
    ensures CountsOk(s.submitted, s.ran, multiset(s.resumed), s.errands, p.at[t := Backoff])
    ensures ProgressOk(s.ticks, s.errands, User(s.main.caller), p.(at := p.at[t := Backoff], backoff := p.backoff + [t]))
  {
    var at' := p.at[t := Backoff];
    assert RanAndLive(s.errands, at') == RanAndLive(s.errands, p.at);
    assert at'.Keys == p.at.Keys;
    if u :| u in p.at && !p.at[u].Entering? && !p.at[u].Backoff? {
      assert at'[u] == p.at[u];
    }
  }

  lemma StashInv(s: Pool, p: Places)
    requires Inv(s, p) && Enabled(s, Stash)
    ensures Inv(Apply(s, Stash), NextPlaces(s, p, Stash))
  {
    var s', p' := Apply(s, Stash), NextPlaces(s, p, Stash);
    assert Recorded(p, s.main.task, Entering);
    hide Slot, SR.Inv, OrderOk, PlacesOk, ListsOk, ErrandsOk, CountsOk, ProgressOk, NoExits;
    assert s' == Append(s, s.main.task).(main := User(s.main.caller));
    assert p' == p.(at := p.at[s.main.task := Backoff], backoff := p.backoff + [s.main.task]);
    assert OrderOk(s'.completed, s'.resumed, p') && ShutdownOk(s'.ring, s'.main, p');
    hide Apply, NextPlaces, ShutdownOk, Enabled, Append;
    StashPlaces(s.ring, s.main, s.next.Keys, p, s.main.task);
    StashRest(s, p, s.main.task);
    StashLists(s, p);
    StashErrands(s, p);
  }

  function TakeStack(p: Places): Places {
    p.(at := map t | t in p.at :: if p.at[t].Completed? then InBatch else p.at[t], todo := p.stack, stack := [])
  }

  lemma ExchangePlaces(r: SR.Ring, m: Main, m': Main, live: set<nat>, p: Places)
    requires PlacesOk(r, m, live, p) && p.todo == [] && p.batch == []
    requires !m.Submitting? && !m.Stashing? && !m'.Submitting? && !m'.Stashing?
    ensures PlacesOk(r, m', live, TakeStack(p))
  {
    var p' := TakeStack(p);
    forall u | u in p'.at ensures IsAt(r, m', p', u, p'.at[u]) {
      assert IsAt(r, m, p, u, p.at[u]);
    }
    assert p'.at.Keys == p.at.Keys;
  }

  lemma ExchangeRest(s: Pool, p: Places)
    requires CountsOk(s.submitted, s.ran, multiset(s.resumed), s.errands, p.at)
    requires ProgressOk(s.ticks, s.errands, s.main, p) && s.main.Draining?
    ensures CountsOk(s.submitted, s.ran, multiset(s.resumed), s.errands, TakeStack(p).at)
    ensures ProgressOk(s.ticks, s.errands, Checking, TakeStack(p))
    ensures ProgressOk(s.ticks, s.errands, Reversing(Null, s.cqHead), TakeStack(p))
  {
    assert RanAndLive(s.errands, TakeStack(p).at) == RanAndLive(s.errands, p.at);
    assert TakeStack(p).at.Keys == p.at.Keys;
  }

  lemma ExchangeOrder(completed: seq<nat>, resumed: seq<nat>, p: Places, p': Places)
    requires OrderOk(completed, resumed, p) && p.todo == [] && p.batch == []
    requires p'.todo == p.stack && p'.stack == [] && p'.batch == []
    ensures OrderOk(completed, resumed, p')
  {}

  lemma ExchangeLists(next: map<nat, Ptr>, cqHead: Ptr, head: Ptr, tail: TailPtr, p: Places)
    requires ListsOk(next, cqHead, head, tail, Draining, p)
    ensures p.todo == [] && p.batch == []
    ensures cqHead.Null? ==> ListsOk(next, Null, head, tail, Checking, TakeStack(p))
    ensures cqHead.To? ==> ListsOk(next, Null, head, tail, Reversing(Null, cqHead), TakeStack(p))
  {}

  lemma ExchangeInv(s: Pool, p: Places)
    requires Inv(s, p) && Enabled(s, Exchange)
    ensures Inv(Apply(s, Exchange), NextPlaces(s, p, Exchange))
  {
    var s', p' := Apply(s, Exchange), NextPlaces(s, p, Exchange);
    hide Slot, SR.Inv, OrderOk, PlacesOk, ErrandsOk, CountsOk, ProgressOk, NoExits, ListsOk;
    assert p' == TakeStack(p);
    assert s' == s.(cqHead := Null, main := if s.cqHead.Null? then Checking else Reversing(Null, s.cqHead));
    assert ShutdownOk(s'.ring, s'.main, p');
    hide Apply, NextPlaces, TakeStack, ShutdownOk;
    ExchangeLists(s.next, s.cqHead, s.backoffHead, s.backoffTail, p);
    ExchangePlaces(s.ring, s.main, s'.main, s.next.Keys, p);
    ExchangeRest(s, p);
    assert p'.todo == p.stack && p'.stack == [] && p'.batch == [] by { TakeStackLists(p); }
    ExchangeOrder(s.completed, s.resumed, p, p');
  }

  lemma TakeStackLists(p: Places)
    ensures var q := TakeStack(p); q.todo == p.stack && q.stack == [] && q.batch == p.batch
  {}

  lemma MoveMain(r: SR.Ring, m: Main, m': Main, live: set<nat>, p: Places)
    requires PlacesOk(r, m, live, p)
    requires !m.Submitting? && !m.Stashing? && !m'.Submitting? && !m'.Stashing?
    ensures PlacesOk(r, m', live, p)
  {
    forall u | u in p.at ensures IsAt(r, m', p, u, p.at[u]) {
      assert IsAt(r, m, p, u, p.at[u]);
    }
  }

  lemma RegroupBatch(r: SR.Ring, m: Main, m': Main, live: set<nat>, p: Places, p': Places)
    requires PlacesOk(r, m, live, p)
    requires p' == p.(todo := p'.todo, batch := p'.batch)
    requires forall u :: (u in p'.todo || u in p'.batch) <==> (u in p.todo || u in p.batch)
    requires forall u :: u in p'.todo ==> u !in p'.batch
    requires !m.Submitting? && !m.Stashing? && !m'.Submitting? && !m'.Stashing?
    ensures PlacesOk(r, m', live, p')
  {
    forall u | u in p.at ensures IsAt(r, m', p', u, p.at[u]) {
      assert IsAt(r, m, p, u, p.at[u]);
    }
  }

  lemma ReversePlaces(s: Pool, p: Places)
    requires Inv(s, p) && Enabled(s, Reverse)
    ensures PlacesOk(s.ring, Apply(s, Reverse).main, s.next.Keys, NextPlaces(s, p, Reverse))
  {
    var m', p' := Apply(s, Reverse).main, NextPlaces(s, p, Reverse);
    assert !m'.Submitting? && !m'.Stashing?;
    ReverseRegroups(s.next, s.main.curr, p);
    hide Slot, SR.Inv, OrderOk, ErrandsOk, ShutdownOk, ListsOk, CountsOk, ProgressOk, PlacesOk, Apply;
    RegroupBatch(s.ring, s.main, m', s.next.Keys, p, p');
  }

  lemma ReverseRegroups(next: map<nat, Ptr>, curr: Ptr, p: Places)
    requires Chain(next, curr, p.todo) && forall u :: u in p.todo ==> u !in p.batch
    ensures p.todo != [] ==>
              && (forall u :: (u in p.todo[1..] || u in [p.todo[0]] + p.batch) <==> (u in p.todo || u in p.batch))
              && (forall u :: u in p.todo[1..] ==> u !in [p.todo[0]] + p.batch)
  {
    if p.todo != [] {
      assert p.todo == [p.todo[0]] + p.todo[1..];
      ChainTail(next, curr, p.todo);
    }
  }

  /** One turn of the reversal loop. */
  lemma ReverseLists(next: map<nat, Ptr>, cqHead: Ptr, head: Ptr, tail: TailPtr, m: Main, p: Places, c: nat)
    requires ListsOk(next, cqHead, head, tail, m, p) && m.Reversing? && m.curr == To(c) && c in next
    requires c !in p.batch && c !in p.stack && c !in p.backoff
    ensures p.todo != [] && p.todo[0] == c
    ensures ListsOk(next[c := m.prev], cqHead, head, tail, Reversing(To(c), next[c]),
                    p.(batch := [c] + p.batch, todo := p.todo[1..]))
  {
    var next' := next[c := m.prev];
    ChainTail(next, m.curr, p.todo);
    hide Chain;
    ChainFrame(next, next', cqHead, p.stack);
    ChainFrame(next, next', m.prev, p.batch);
    ChainPush(next', m.prev, p.batch, c);
    ChainFrame(next, next', head, p.backoff);
    ChainFrame(next, next', next[c], p.todo[1..]);
  }

  lemma ReverseErrands(r: SR.Ring, errands: seq<Errand>, next: map<nat, Ptr>, c: nat, x: Ptr)
    requires ErrandsOk(r, errands, next) && forall w: nat :: Holds(r, w) ==> Held(r, w) != c
    ensures ErrandsOk(r, errands, next[c := x])
  {}

  lemma TodoIsApart(r: SR.Ring, m: Main, live: set<nat>, p: Places, t: nat)
    requires PlacesOk(r, m, live, p) && t in p.todo
    ensures t in live && t !in p.stack && t !in p.backoff && t !in p.batch
    ensures forall w: nat :: Holds(r, w) ==> Held(r, w) != t
  {
    assert Recorded(p, t, InBatch);
    forall w: nat | Holds(r, w) ensures Held(r, w) != t {
      assert Recorded(p, Held(r, w), InHand(w));
    }
  }

  lemma ChainTail(next: map<nat, Ptr>, head: Ptr, xs: seq<nat>)
    requires Chain(next, head, xs) && xs != []
    ensures head == To(xs[0]) && xs[0] in next && Chain(next, next[xs[0]], xs[1..])
    ensures xs[0] !in xs[1..]
  {}

  lemma ReverseOrder(completed: seq<nat>, resumed: seq<nat>, p: Places)
    requires OrderOk(completed, resumed, p) && p.todo != []
    ensures OrderOk(completed, resumed, p.(batch := [p.todo[0]] + p.batch, todo := p.todo[1..]))
  {}

  lemma ReversedInv(s: Pool, p: Places)
    requires Inv(s, p) && Enabled(s, Reverse) && p.todo == []
    ensures Inv(Apply(s, Reverse), p)
  {
    hide Slot, SR.Inv, PlacesOk, ErrandsOk, CountsOk, NoExits, OrderOk;
    MoveMain(s.ring, s.main, Processing(s.main.prev), s.next.Keys, p);
  }

  lemma ReverseInv(s: Pool, p: Places)
    requires Inv(s, p) && Enabled(s, Reverse) && p.todo != []
    ensures Inv(Apply(s, Reverse), NextPlaces(s, p, Reverse))
  {
    var s', p', c := Apply(s, Reverse), NextPlaces(s, p, Reverse), p.todo[0];
    hide Slot, SR.Inv, PlacesOk, ErrandsOk, CountsOk, NoExits, OrderOk, BackoffOk;
    assert s.main.curr == To(c);
    assert s' == s.(next := s.next[c := s.main.prev], main := Reversing(To(c), s.next[c]));
    assert p' == p.(batch := [c] + p.batch, todo := p.todo[1..]);
    assert ProgressOk(s'.ticks, s'.errands, s'.main, p') && ShutdownOk(s'.ring, s'.main, p');
    ReversePlaces(s, p);
    hide Apply, NextPlaces, ListsOk, ProgressOk, ShutdownOk;
    TodoIsApart(s.ring, s.main, s.next.Keys, p, c);
    assert s'.next.Keys == s.next.Keys;
    ReverseLists(s.next, s.cqHead, s.backoffHead, s.backoffTail, s.main, p, c);
    ReverseErrands(s.ring, s.errands, s.next, c, s.main.prev);
    ReverseOrder(s.completed, s.resumed, p);
  }

  lemma LeaveBatch(r: SR.Ring, m: Main, m': Main, live: set<nat>, p: Places, t: nat, rest: seq<nat>)
    requires PlacesOk(r, m, live, p) && p.todo == []
    requires p.batch == [t] + rest && t !in rest
    requires !m.Submitting? && !m.Stashing? && !m'.Submitting? && !m'.Stashing?
    ensures PlacesOk(r, m', live - {t}, p.(at := p.at - {t}, batch := rest))
  {
    assert Recorded(p, t, InBatch);
    var p' := p.(at := p.at - {t}, batch := rest);
    forall u | u in p'.at ensures IsAt(r, m', p', u, p'.at[u]) {
      assert IsAt(r, m, p, u, p.at[u]);
    }
    assert p'.at.Keys == p.at.Keys - {t};
    assert forall u :: u in rest ==> u in p.batch && u != t;
  }

  lemma ProcessPlaces(s: Pool, p: Places)
    requires Inv(s, p) && Enabled(s, Process) && p.batch != []
    ensures var s', p' := Apply(s, Process), NextPlaces(s, p, Process);
            PlacesOk(s.ring, s'.main, s'.next.Keys, p')
  {
    hide Slot, SR.Inv, OrderOk, ErrandsOk, ShutdownOk, CountsOk, ProgressOk, PlacesOk, BackoffOk;
    ChainTail(s.next, s.main.t, p.batch);
    var t := p.batch[0];
    assert p.batch == [t] + p.batch[1..];
    LeaveBatch(s.ring, s.main, Apply(s, Process).main, s.next.Keys, p, t, p.batch[1..]);
    assert (s.next - {t}).Keys == s.next.Keys - {t};
  }

  lemma LeaveLists(next: map<nat, Ptr>, cqHead: Ptr, head: Ptr, tail: TailPtr, m: Main, p: Places, t: nat)
    requires ListsOk(next, cqHead, head, tail, m, p) && m == Processing(To(t)) && t in next
    requires t !in p.stack && t !in p.backoff
    ensures ListsOk(next - {t}, cqHead, head, tail, User(Drain(next[t])), p.(at := p.at - {t}, batch := p.batch[1..]))
  {
    var next' := next - {t};
    ChainTail(next, To(t), p.batch);
    ChainFrame(next, next', cqHead, p.stack);
    ChainFrame(next, next', head, p.backoff);
    ChainFrame(next, next', next[t], p.batch[1..]);
  }

  lemma LeaveErrands(r: SR.Ring, errands: seq<Errand>, next: map<nat, Ptr>, t: nat)
    requires ErrandsOk(r, errands, next) && forall w: nat :: Holds(r, w) ==> Held(r, w) != t
    ensures ErrandsOk(r, errands, next - {t})
  {}

  lemma BatchIsApart(r: SR.Ring, m: Main, live: set<nat>, p: Places, t: nat)
    requires PlacesOk(r, m, live, p) && t in p.batch
    ensures Recorded(p, t, InBatch) && t in live && t !in p.stack && t !in p.backoff
    ensures forall w: nat :: Holds(r, w) ==> Held(r, w) != t
  {
    forall w: nat | Holds(r, w) ensures Held(r, w) != t {
      assert Recorded(p, Held(r, w), InHand(w));
    }
  }

  lemma ProcessCounts(s: Pool, p: Places, t: nat)
    requires CountsOk(s.submitted, s.ran, multiset(s.resumed), s.errands, p.at) && Recorded(p, t, InBatch)
    ensures CountsOk(s.submitted, s.ran, multiset(s.resumed + [t]), s.errands, p.at - {t})
  {
    var at' := p.at - {t};
    assert multiset(s.resumed + [t]) == multiset(s.resumed) + multiset{t};
    assert at'.Keys == p.at.Keys - {t};
    assert multiset(p.at.Keys) == multiset(at'.Keys) + multiset{t};
    assert RanAndLive(s.errands, at') == RanAndLive(s.errands, p.at) - {t};
    assert t in RanAndLive(s.errands, p.at);
    assert multiset(RanAndLive(s.errands, p.at)) == multiset(RanAndLive(s.errands, at')) + multiset{t};
  }

  lemma BatchDoneInv(s: Pool, p: Places)
    requires Inv(s, p) && Enabled(s, Process) && p.batch == []
    ensures Inv(Apply(s, Process), NextPlaces(s, p, Process))
  {
    hide Slot, SR.Inv, OrderOk, ErrandsOk, CountsOk, PlacesOk;
    MoveMain(s.ring, s.main, Draining, s.next.Keys, p);
  }

  lemma ProcessOrder(completed: seq<nat>, resumed: seq<nat>, p: Places, p': Places)
    requires OrderOk(completed, resumed, p) && p.todo == [] && p.batch != []
    requires p'.todo == [] && p'.batch == p.batch[1..] && p'.stack == p.stack
    ensures OrderOk(completed, resumed + [p.batch[0]], p')
  {}

  lemma ProcessInv(s: Pool, p: Places)
    requires Inv(s, p) && Enabled(s, Process) && p.batch != []
    ensures Inv(Apply(s, Process), NextPlaces(s, p, Process))
  {
    var s', p', t := Apply(s, Process), NextPlaces(s, p, Process), p.batch[0];
    hide Slot, SR.Inv, PlacesOk, ErrandsOk, CountsOk, NoExits, BackoffOk, OrderOk;
    assert s.main == Processing(To(t)) && p.todo == [];
    BatchIsApart(s.ring, s.main, s.next.Keys, p, t);
    assert s' == s.(next := s.next - {t}, resumed := s.resumed + [t], main := User(Drain(s.next[t])));
    assert p' == p.(at := p.at - {t}, batch := p.batch[1..]);
    assert ProgressOk(s'.ticks, s'.errands, s'.main, p') && ShutdownOk(s'.ring, s'.main, p');
    ProcessPlaces(s, p);
    hide Apply, NextPlaces, ListsOk, ProgressOk, ShutdownOk;
    LeaveLists(s.next, s.cqHead, s.backoffHead, s.backoffTail, s.main, p, t);
    LeaveErrands(s.ring, s.errands, s.next, t);
    ProcessCounts(s, p, t);
    ProcessOrder(s.completed, s.resumed, p, p');
  }

  lemma RepushFullInv(s: Pool, p: Places)
    requires Inv(s, p) && Enabled(s, Repush) && RingFull(s)
    ensures Inv(Apply(s, Repush), p)
  {
    FullRingInFlight(s, p);
    MoveMain(s.ring, s.main, User(EventLoop), s.next.Keys, p);
    hide Slot, SR.Inv, OrderOk, ErrandsOk, CountsOk, PlacesOk;
  }

  lemma RepushHead(s: Pool, p: Places)
    requires Inv(s, p) && Enabled(s, Repush)
    ensures Recorded(p, s.main.task, Backoff)
    ensures p.backoff != [] && p.backoff == [s.main.task] + p.backoff[1..]
    ensures BackoffOk(s.next, s.backoffHead, s.backoffTail, Walking(s.main.next), p.backoff[1..])
    ensures forall u :: u in p.backoff[1..] <==> u in p.backoff && u != s.main.task
  {
    hide Slot, SR.Inv, OrderOk, ErrandsOk, CountsOk, ShutdownOk, ProgressOk;
    var t := s.main.task;
    assert p.backoff != [] && p.backoff[0] == t;
    ChainTail(s.next, To(t), p.backoff);
  }

  lemma RepushPlaces(s: Pool, p: Places)
    requires Inv(s, p) && Enabled(s, Repush) && !RingFull(s)
    ensures PlacesOk(SR.Apply(s.ring, SR.Push(SR.Job(s.main.task))), Walking(s.main.next), s.next.Keys,
                     NextPlaces(s, p, Repush))
  {
    RepushHead(s, p);
    hide Slot, SR.Inv, OrderOk, ErrandsOk, CountsOk, PlacesOk, ListsOk, ShutdownOk, ProgressOk, SR.Apply, BackoffOk;
    PushPlaces(s.ring, s.main, Walking(s.main.next), s.next.Keys, p, NextPlaces(s, p, Repush), s.main.task);
  }

  lemma RepushInv(s: Pool, p: Places)
    requires Inv(s, p) && Enabled(s, Repush) && !RingFull(s)
    ensures Inv(Apply(s, Repush), NextPlaces(s, p, Repush))
  {
    var s', p', t := Apply(s, Repush), NextPlaces(s, p, Repush), s.main.task;
    hide Slot, SR.Inv, OrderOk, ErrandsOk, CountsOk, PlacesOk, NoExits, SR.Apply, BackoffOk, Chain;
    RepushHead(s, p);
    assert s' == s.(ring := SR.Apply(s.ring, SR.Push(SR.Job(t))), main := Walking(s.main.next));
    assert p' == p.(at := p.at[t := InSlot(SR.TailSlot(s.ring))], backoff := p.backoff[1..]);
    assert ListsOk(s'.next, s'.cqHead, s'.backoffHead, s'.backoffTail, s'.main, p');
    assert OrderOk(s'.completed, s'.resumed, p') && ProgressOk(s'.ticks, s'.errands, s'.main, p');
    RepushPlaces(s, p);
    hide Apply, NextPlaces, ListsOk, ProgressOk;
    PushOthers(s, p, p'.at, t);
  }

  // ----- shutdown

  lemma EmptyLists(s: Pool, p: Places)
    requires Inv(s, p) && s.next == map[]
    ensures p == NOWHERE
  {
    hide Slot, SR.Inv, OrderOk, ErrandsOk, CountsOk, ProgressOk, ShutdownOk, ListsOk;
    FirstIsMember(p.backoff);
    FirstIsMember(p.stack);
    FirstIsMember(p.todo);
    FirstIsMember(p.batch);
  }

  lemma FirstIsMember(xs: seq<nat>)
    ensures xs == [] || exists x :: x in xs
  {
    if xs != [] { assert xs[0] in xs; }
  }

  lemma StopBegins(r: SR.Ring)
    requires SR.WellFormed(r) && NoExits(r) && forall a: nat :: !JobIn(r, a)
    ensures StoppingOk(r, Stopping(|r.workers|))
  {
    assert Leavers(r) == {};
    forall a: nat | a < |r.cells| ensures r.cells[a].Empty? {
      assert !JobIn(r, a) && !ExitIn(r, a);
    }
    assert SR.Inhabited(r) == {};
  }

  lemma NowhereMeansNoJobs(r: SR.Ring, m: Main, live: set<nat>, p: Places)
    requires PlacesOk(r, m, live, p) && p == NOWHERE
    ensures forall a: nat :: !JobIn(r, a)
  {
    assert forall a: nat :: JobIn(r, a) ==> r.cells[a].item.task in p.at;
  }

  lemma ShutdownInv(s: Pool, p: Places)
    requires Inv(s, p) && Enabled(s, Shutdown)
    ensures Inv(Apply(s, Shutdown), p)
  {
    EmptyLists(s, p);
    hide Slot, SR.Inv, OrderOk, ErrandsOk, CountsOk, PlacesOk, NoExits, StoppingOk;
    NowhereMeansNoJobs(s.ring, s.main, s.next.Keys, p);
    StopBegins(s.ring);
    MoveMain(s.ring, s.main, Stopping(|s.ring.workers|), s.next.Keys, p);
  }

  /** The ring has room for every exit request. */
  lemma RoomForExit(r: SR.Ring, m: Main)
    requires SR.Inv(r) && r.producer.Ready? && m.Stopping? && m.left > 0 && StoppingOk(r, m)
    requires forall a: nat :: !JobIn(r, a)
    ensures r.cells[SR.TailSlot(r)].Empty?
  {
    hide Slot;
    var a := SR.TailSlot(r);
    if r.cells[a].Full? {
      assert !JobIn(r, a);
      assert ExitIn(r, a);
      var k: nat :| ExitTicket(r, ExitsPushed(r, m), a, k);
      var _ := SlotGap(k, r.tail, r.cap);
    }
  }

  lemma PushExitRing(r: SR.Ring, m: Main)
    requires SR.Inv(r) && r.producer.Ready? && m.Stopping? && m.left > 0 && StoppingOk(r, m)
    requires r.cells[SR.TailSlot(r)].Empty?
    ensures var r' := SR.Apply(r, SR.Push(SR.ExitRequest));
            StoppingOk(r', Stopping(m.left - 1))
  {
    hide Slot, SR.SlotBalanced, SR.FlagsOwned;
    var r', m' := SR.Apply(r, SR.Push(SR.ExitRequest)), Stopping(m.left - 1);
    var b := SR.TailSlot(r);
    assert Leavers(r') == Leavers(r);
    assert SR.Inhabited(r') == SR.Inhabited(r) + {b};
    forall a: nat | ExitIn(r', a) ensures exists k: nat :: ExitTicket(r', ExitsPushed(r', m'), a, k) {
      if a == b {
        assert ExitTicket(r', ExitsPushed(r', m'), a, r.tail);
      } else {
        assert ExitIn(r, a);
        var k: nat :| ExitTicket(r, ExitsPushed(r, m), a, k);
        assert ExitTicket(r', ExitsPushed(r', m'), a, k);
      }
    }
  }

  lemma ExitHasRoom(s: Pool, p: Places)
    requires Inv(s, p) && Enabled(s, PushExit) && s.main.left > 0
    ensures !RingFull(s)
  {
    hide Slot, CountsOk, ListsOk, ErrandsOk, ProgressOk, PlacesOk, OrderOk, SR.Inv, StoppingOk;
    NowhereMeansNoJobs(s.ring, s.main, s.next.Keys, p);
    RoomForExit(s.ring, s.main);
  }

  lemma PushExitInv(s: Pool, p: Places)
    requires Inv(s, p) && Enabled(s, PushExit) && s.main.left > 0
    ensures !RingFull(s)
    ensures Inv(Apply(s, PushExit), p)
  {
    ExitHasRoom(s, p);
    var s' := Apply(s, PushExit);
    hide Slot, SR.Inv, OrderOk, CountsOk, StoppingOk, PlacesOk, ErrandsOk, SR.Apply, Chain;
    assert s' == s.(ring := SR.Apply(s.ring, SR.Push(SR.ExitRequest)), main := Stopping(s.main.left - 1));
    assert ListsOk(s'.next, s'.cqHead, s'.backoffHead, s'.backoffTail, s'.main, p);
    assert ProgressOk(s'.ticks, s'.errands, s'.main, p);
    hide Apply, ListsOk, ProgressOk;
    PushErrands(s.ring, s.errands, s.next);
    PushExitRing(s.ring, s.main);
    SR.StepInv(s.ring, SR.Push(SR.ExitRequest));
    PushExitPlaces(s.ring, s.main, s.next.Keys, p);
  }

  lemma PushErrands(r: SR.Ring, errands: seq<Errand>, next: map<nat, Ptr>)
    requires SR.WellFormed(r) && SR.Enabled(r, SR.Push(SR.ExitRequest)) && ErrandsOk(r, errands, next)
    ensures ErrandsOk(SR.Apply(r, SR.Push(SR.ExitRequest)), errands, next)
  {
    hide Slot;
    assert SR.Apply(r, SR.Push(SR.ExitRequest)).workers == r.workers;
  }

  lemma PushExitPlaces(r: SR.Ring, m: Main, live: set<nat>, p: Places)
    requires SR.WellFormed(r) && SR.Enabled(r, SR.Push(SR.ExitRequest)) && m.Stopping? && m.left > 0
    requires PlacesOk(r, m, live, p) && p == NOWHERE
    ensures PlacesOk(SR.Apply(r, SR.Push(SR.ExitRequest)), Stopping(m.left - 1), live, p)
  {
    hide Slot;
    var r' := SR.Apply(r, SR.Push(SR.ExitRequest));
    assert forall a: nat :: JobIn(r', a) ==> JobIn(r, a);
    assert forall w: nat :: Holds(r', w) ==> Holds(r, w);
  }

  lemma ExitsPushedInv(s: Pool, p: Places)
    requires Inv(s, p) && Enabled(s, PushExit) && s.main.left == 0
    ensures Inv(Apply(s, PushExit), p)
  {
    MoveMain(s.ring, s.main, Joining, s.next.Keys, p);
    hide Slot, SR.Inv, OrderOk, CountsOk, PlacesOk, ErrandsOk;
  }

  lemma JoinStops(r: SR.Ring)
    requires StoppingOk(r, Joining) && r.producer.Ready? && forall w: nat :: w < |r.workers| ==> r.workers[w].Exited?
    ensures StoppingOk(r, Closed)
  {}

  lemma JoinInv(s: Pool, p: Places)
    requires Inv(s, p) && Enabled(s, Join)
    ensures Inv(Apply(s, Join), p)
  {
    hide Slot, SR.Inv, OrderOk, CountsOk, PlacesOk, ErrandsOk, StoppingOk, Chain;
    JoinStops(s.ring);
    MoveMain(s.ring, s.main, Closed, s.next.Keys, p);
  }

  /** The invariant is inductive. */
  lemma StepInv(s: Pool, p: Places, step: Step)
    requires Inv(s, p) && Enabled(s, step)
    ensures Inv(Apply(s, step), NextPlaces(s, p, step))
  {
    assert WellFormed(s);
    hide Inv, Apply;
    match step
    case InRing(rs) =>
      if MovesNoItem(rs) {
        QuietInv(s, p, rs);
      } else if rs.PollHit? && s.ring.cells[SR.SlotOf(s.ring, rs.w)].item.Job? {
        PollHitInv(s, p, rs.w, s.ring.cells[SR.SlotOf(s.ring, rs.w)].item.task);
      } else {
        ExitStepInv(s, p, rs);
      }
    case Run(w) => RunInv(s, p, w);
    case Load(w) => LoadInv(s, p, w);
    case Link(w) => LinkInv(s, p, w);
    case Swap(w, spurious) =>
      if spurious || s.cqHead != s.errands[w].head { SwapFailInv(s, p, w, spurious); } else { SwapInv(s, p, w); }
    case Post(w) => PostInv(s, p, w);
    case Submit(t) => SubmitInv(s, p, t);
    case PushNew => if RingFull(s) { PushNewFullInv(s, p); } else { PushNewInv(s, p); }
    case Stash => StashInv(s, p);
    case Exchange => ExchangeInv(s, p);
    case Reverse => if p.todo == [] { ReversedInv(s, p); } else { ReverseInv(s, p); }
    case Process => if p.batch == [] { BatchDoneInv(s, p); } else { ProcessInv(s, p); }
    case Repush => if RingFull(s) { RepushFullInv(s, p); } else { RepushInv(s, p); }
    case Shutdown => ShutdownInv(s, p);
    case PushExit => if s.main.left == 0 { ExitsPushedInv(s, p); } else { PushExitInv(s, p); }
    case Join => JoinInv(s, p);
    case _ => ReadOnlyInv(s, p, step);
  }
}
