/** What the thread pool guarantees over whole runs. */
module PoolTheorems {
  import opened Collections
  import opened TicketArithmetic
  import SR = SubmissionRing
  import opened ThreadPool
  import opened PoolInvariant
  import PoolSteps

  /** A run of a freshly constructed pool. */
  ghost predicate IsRun(threads: nat, states: seq<Pool>, steps: seq<Step>) {
    && 1 <= threads <= Pow2(22)
    && |states| == |steps| + 1
    && states[0] == Init(threads, Capacity(threads))
    && forall i: nat :: i < |steps| ==>
         WellFormed(states[i]) && Enabled(states[i], steps[i]) && states[i + 1] == Apply(states[i], steps[i])
  }

  lemma {:induction false} RunInv(threads: nat, states: seq<Pool>, steps: seq<Step>) returns (p: Places)
    requires IsRun(threads, states, steps)
    ensures Inv(states[|steps|], p)
    decreases |steps|
  {
    hide Inv, Apply, Enabled, Capacity, Pow2;
    if steps == [] {
      assert threads <= Pow2(31) by { Pow2Mono(22, 31); }
      CapacityHoldsThreads(threads);
      PoolSteps.InitInv(threads, Capacity(threads));
      p := NOWHERE;
    } else {
      var n := |steps| - 1;
      assert IsRun(threads, states[..n + 1], steps[..n]);
      var q := RunInv(threads, states[..n + 1], steps[..n]);
      PoolSteps.StepInv(states[n], q, steps[n]);
      p := NextPlaces(states[n], q, steps[n]);
    }
  }

  // ----- exactly once

  /** In every reachable state a live task is in exactly one place, and nothing else is anywhere. */
  lemma OnePlace(s: Pool, p: Places, t: nat, place: Place)
    requires Inv(s, p)
    ensures IsAt(s.ring, s.main, p, t, place) <==> t in s.next && p.at[t] == place
  {
    hide Slot, SR.Inv, ListsOk, ErrandsOk, CountsOk, OrderOk, ProgressOk, ShutdownOk;
    if IsAt(s.ring, s.main, p, t, place) {
      match place
      case InSlot(a) => assert JobIn(s.ring, a) && Recorded(p, t, InSlot(a));
      case InHand(w) => assert Recorded(p, t, InHand(w));
      case _ =>
    } else if t in s.next {
      assert t in p.at.Keys;
    }
  }

  /** Over every run: each submission is resumed at most once, after it ran, which it did once; what
      is not resumed yet is live; and parents are resumed in the order their tasks completed. */
  lemma ExactlyOnce(threads: nat, states: seq<Pool>, steps: seq<Step>)
    requires IsRun(threads, states, steps)
    ensures var s := states[|steps|];
            && s.submitted == multiset(s.resumed) + multiset(s.next.Keys)
            && multiset(s.resumed) <= s.ran <= s.submitted
            && s.resumed <= s.completed
            && !s.main.AssertionFailed?
  {
    var s := states[|steps|];
    var p := RunInv(threads, states, steps);
    hide Slot, SR.Inv, ListsOk, ErrandsOk, ProgressOk, StoppingOk, IsRun;
    assert p.at.Keys == s.next.Keys;
    assert RanAndLive(s.errands, p.at) <= p.at.Keys;
    assert multiset(RanAndLive(s.errands, p.at)) <= multiset(p.at.Keys);
    assert s.resumed == s.completed[..|s.resumed|];
    NotFailed(s, p);
  }

  lemma NotFailed(s: Pool, p: Places)
    requires Inv(s, p)
    ensures !s.main.AssertionFailed?
  {}

  // ----- backing off

  /** The tasks that were stashed because the ring was full, in that order. */
  function Stashed(states: seq<Pool>, steps: seq<Step>): seq<nat>
    requires |states| == |steps| + 1
  {
    if steps == [] then []
    else
      var n := |steps| - 1;
      Stashed(states[..n + 1], steps[..n]) + if steps[n].Stash? && states[n].main.Stashing? then [states[n].main.task] else []
  }

  /** The stashed tasks that have been pushed into the ring since, in that order. */
  function Resubmitted(states: seq<Pool>, steps: seq<Step>): seq<nat>
    requires |states| == |steps| + 1
  {
    if steps == [] then []
    else
      var n := |steps| - 1;
      Resubmitted(states[..n + 1], steps[..n]) + if steps[n].Repush? && FindsRoom(states[n]) then [states[n].main.task] else []
  }

  /** A stashed task is about to be pushed, and the ring is not full. */
  predicate FindsRoom(s: Pool) {
    s.main.Resubmitting? && WellFormed(s) && !RingFull(s)
  }

  /** Over every run, tasks leave the backoff list in the order in which they were put there: the list that
      starts at the head, or where the walk along it stands, holds the rest of them. */
  lemma {:induction false} FirstStashedFirstPushed(threads: nat, states: seq<Pool>, steps: seq<Step>) returns (xs: seq<nat>)
    requires IsRun(threads, states, steps)
    ensures var s := states[|steps|]; Chain(s.next, BackoffPtr(s.main, s.backoffHead), xs)
    ensures Stashed(states, steps) == Resubmitted(states, steps) + xs
  {
    var p := BackoffIsRest(threads, states, steps);
    hide IsRun;
    ListOfBackoff(states[|steps|], p);
    xs := p.backoff;
  }

  lemma ListOfBackoff(s: Pool, p: Places)
    requires Inv(s, p)
    ensures Chain(s.next, BackoffPtr(s.main, s.backoffHead), p.backoff)
  {
    hide SR.Inv, PlacesOk, ErrandsOk, CountsOk, OrderOk, ProgressOk, ShutdownOk;
  }

  lemma {:induction false} BackoffIsRest(threads: nat, states: seq<Pool>, steps: seq<Step>) returns (p: Places)
    requires IsRun(threads, states, steps)
    ensures Inv(states[|steps|], p) && Stashed(states, steps) == Resubmitted(states, steps) + p.backoff
    decreases |steps|
  {
    hide Inv, Apply, Enabled, Capacity, Pow2;
    if steps == [] {
      p := RunInv(threads, states, steps);
      NothingStashed(threads, states[0], p);
    } else {
      var n := |steps| - 1;
      assert IsRun(threads, states[..n + 1], steps[..n]);
      var q := BackoffIsRest(threads, states[..n + 1], steps[..n]);
      PoolSteps.StepInv(states[n], q, steps[n]);
      BackoffStep(states[n], q, steps[n]);
      p := NextPlaces(states[n], q, steps[n]);
    }
  }

  lemma NothingStashed(threads: nat, s: Pool, p: Places)
    requires s == Init(threads, Capacity(threads)) && Inv(s, p)
    ensures p.backoff == []
  {
    hide Capacity;
    ListOfBackoff(s, p);
  }

  lemma BackoffStep(s: Pool, p: Places, step: Step)
    requires Inv(s, p) && Enabled(s, step)
    ensures var p' := NextPlaces(s, p, step);
            if step.Stash? then s.main.Stashing? && p'.backoff == p.backoff + [s.main.task]
            else if step.Repush? && FindsRoom(s) then p.backoff == [s.main.task] + p'.backoff
            else p'.backoff == p.backoff
  {
    hide SR.Inv, PlacesOk, ErrandsOk, CountsOk, OrderOk, ProgressOk, ShutdownOk;
    if step.Repush? { PoolSteps.RepushHead(s, p); }
  }

  // ----- progress

  /** Steps that nobody owes: new submissions, the destructor, a spurious wake-up. */
  predicate Unprompted(step: Step) {
    step.Submit? || step.Shutdown? || (step.InRing? && step.step.Stir?)
  }

  /** A step that is enabled and that somebody owes. */
  predicate Owed(s: Pool, step: Step)
    requires WellFormed(s)
  {
    Enabled(s, step) && !Unprompted(step)
  }

  lemma ProducerMoves(s: Pool) returns (step: Step)
    requires WellFormed(s) && !s.ring.producer.Ready?
    ensures Owed(s, step)
  {
    hide Slot;
    match s.ring.producer
    case Published(_) => step := InRing(SR.LoadFlag);
    case Advancing => step := InRing(SR.Advance);
    case Notifying(a) =>
      if w: nat :| w < |s.ring.workers| && SR.Waits(s.ring, w) && s.ring.workers[w].Blocked? && SR.SlotOf(s.ring, w) == a {
        step := InRing(SR.Notify(w));
      } else {
        step := InRing(SR.Notify(-1));
      }
  }

  predicate Asleep(s: Pool, w: nat)
    requires WellFormed(s) && w < |s.errands|
  {
    s.errands[w].Free? && (s.ring.workers[w].Blocked? || s.ring.workers[w].Exited?)
  }

  ghost predicate AllAsleep(s: Pool)
    requires WellFormed(s)
  {
    forall w: nat :: w < |s.errands| ==>
      s.errands[w].Free? && (s.ring.workers[w].Blocked? || s.ring.workers[w].Exited?)
  }

  lemma WorkerMoves(s: Pool, p: Places, w: nat) returns (step: Step)
    requires Inv(s, p) && w < |s.errands| && !Asleep(s, w)
    ensures Owed(s, step)
  {
    hide Slot, SR.Inv, ListsOk, CountsOk, OrderOk, ProgressOk, ShutdownOk;
    match s.errands[w] {
      case ToRun => step := Run(w);
      case ToLoad => step := Load(w);
      case Loaded(_) =>
        assert Recorded(p, Held(s.ring, w), InHand(w));
        step := Link(w);
      case Linked(_) => step := Swap(w, false);
      case ToPost => step := Post(w);
      case Free => step := WorkerMovesInRing(s, w);
    }
  }

  lemma WorkerMovesInRing(s: Pool, w: nat) returns (step: Step)
    requires WellFormed(s) && w < |s.errands| && s.errands[w].Free? && !Holds(s.ring, w) && !Asleep(s, w)
    ensures Owed(s, step)
  {
    hide Slot;
    match s.ring.workers[w]
    case Idle => step := InRing(SR.Take(w));
    case Polling(_) =>
      step := InRing(if s.ring.cells[SR.SlotOf(s.ring, w)].Full? then SR.PollHit(w) else SR.PollMiss(w));
    case Missed(_) => step := InRing(SR.RaiseFlag(w));
    case Armed(_) => step := InRing(SR.Test(w));
    case Notified(_) => step := InRing(SR.Test(w));
    case Waking(_) => step := InRing(SR.LowerFlag(w));
    case Holding(_) => step := InRing(SR.Exit(w));
  }

  /** The main thread has nothing to do until something happens. */
  predicate MainWaits(s: Pool) {
    (s.main == User(EventLoop) && s.ticks == 0) || s.main.Joining? || s.main.Closed?
  }

  lemma MainMoves(s: Pool, p: Places) returns (step: Step)
    requires Inv(s, p) && s.ring.producer.Ready? && !MainWaits(s)
    ensures Owed(s, step)
  {
    NotFailed(s, p);
    if s.main.Stashing? || s.main.Reversing? || s.main.Processing? || s.main.Walking? {
      step := MainMovesOnList(s, p);
    } else {
      hide Slot, Inv;
      assert WellFormed(s);
      match s.main
      case User(EventLoop) => step := Tick;
      case User(Drain(_)) => step := Return;
      case Submitting(_, _) => step := PushNew;
      case Draining => step := Exchange;
      case Checking => step := Check;
      case Resubmitting(_, _) => step := Repush;
      case Stopping(_) => step := PushExit;
    }
  }

  /** Every next_ field that the main thread is about to touch belongs to a live task. */
  lemma MainMovesOnList(s: Pool, p: Places) returns (step: Step)
    requires Inv(s, p) && s.ring.producer.Ready?
    requires s.main.Stashing? || s.main.Reversing? || s.main.Processing? || s.main.Walking?
    ensures Owed(s, step)
  {
    ListedAreLive(s, p);
    hide Slot, SR.Inv, CountsOk, OrderOk, ProgressOk, ShutdownOk, PlacesOk, ErrandsOk;
    step := if s.main.Stashing? then Stash else if s.main.Reversing? then Reverse
            else if s.main.Processing? then Process else Walk;
  }

  lemma ListedAreLive(s: Pool, p: Places)
    requires Inv(s, p)
    ensures s.main.Stashing? ==> s.main.task in s.next
    ensures forall u :: u in p.todo || u in p.batch || u in p.backoff ==> u in s.next
  {
    hide Slot, SR.Inv, CountsOk, OrderOk, ProgressOk, ShutdownOk, ListsOk, ErrandsOk;
  }

  /** Every parent has been resumed, and the pool is idle or closed. */
  predicate Done(s: Pool) {
    s.next == map[] && (s.main == User(EventLoop) || s.main.Closed?)
  }

  lemma AllExited(s: Pool, p: Places)
    requires Inv(s, p) && forall w: nat :: w < |s.ring.workers| ==> s.ring.workers[w].Exited?
    ensures InShutdown(s.main) && SR.Inhabited(s.ring) == {} && ExitsPushed(s.ring, s.main) == |s.ring.workers|
  {
    hide Slot, SR.Inv, CountsOk, OrderOk, ProgressOk, ListsOk, ErrandsOk, PlacesOk;
    assert TookExit(s.ring, 0);
    FullRange(Leavers(s.ring), |s.ring.workers|);
  }

  /** When every worker sleeps or has left, no slot is inhabited. */
  lemma SleepersMeanEmptyRing(s: Pool, p: Places, a: nat)
    requires Inv(s, p) && s.ring.producer.Ready? && a < s.ring.cap
    requires AllAsleep(s)
    ensures s.ring.cells[a].Empty?
  {
    hide Slot, CountsOk, OrderOk, ProgressOk, ListsOk, ErrandsOk, PlacesOk, SR.Balanced, SR.SlotBalanced, SR.FlagsOwned;
    if w: nat :| w < |s.ring.workers| && s.ring.workers[w].Blocked? {
      if s.ring.cells[a].Full? {
        var v := SR.InhabitedSlotIsServed(s.ring, a, w);
      }
    } else {
      AllExited(s, p);
      assert a !in SR.Inhabited(s.ring);
    }
  }

  lemma NothingInFlight(s: Pool, p: Places)
    requires Inv(s, p) && MainWaits(s)
    requires forall a: nat :: a < s.ring.cap ==> s.ring.cells[a].Empty?
    requires AllAsleep(s)
    ensures p.stack == [] && p.todo == [] && p.batch == []
    ensures !SomethingInFlight(p.at)
  {
    hide Slot, SR.Inv, CountsOk, OrderOk;
    assert p.stack == [] && p.todo == [] && p.batch == [];
    forall t | t in p.at ensures p.at[t].Entering? || p.at[t].Backoff? {
      assert IsAt(s.ring, s.main, p, t, p.at[t]);
    }
  }

  lemma NothingWaiting(s: Pool, p: Places)
    requires Inv(s, p) && MainWaits(s) && !SomethingInFlight(p.at)
    ensures s.next == map[]
  {
    hide Slot, SR.Inv, ListsOk, ErrandsOk, CountsOk, OrderOk;
    assert p.backoff == [];
    assert forall t :: t in p.at ==> IsAt(s.ring, s.main, p, t, p.at[t]);
    assert s.next.Keys == {};
  }

  lemma JoinEnabled(s: Pool, p: Places)
    requires Inv(s, p) && s.main.Joining? && s.ring.producer.Ready?
    requires forall a: nat :: a < s.ring.cap ==> s.ring.cells[a].Empty?
    requires AllAsleep(s)
    ensures Enabled(s, Join)
  {
    hide Slot, SR.Inv, CountsOk, OrderOk, ProgressOk, ListsOk, PlacesOk;
    assert SR.Inhabited(s.ring) == {};
    forall w: nat | w < |s.ring.workers| ensures s.ring.workers[w].Exited? {
      RangeCard(Leavers(s.ring) + {w}, |s.ring.workers|);
      assert w in Leavers(s.ring) && TookExit(s.ring, w);
    }
  }

  /** Whenever the pool is not done, somebody owes it a step that can be taken: no task, worker,
      wake-up, tick or exit request is ever lost. */
  lemma Progress(s: Pool, p: Places) returns (step: Step)
    requires Inv(s, p) && !Done(s)
    ensures Owed(s, step)
  {
    assert WellFormed(s);
    hide Inv, Enabled;
    if !s.ring.producer.Ready? {
      step := ProducerMoves(s);
    } else if w: nat :| w < |s.errands| && !Asleep(s, w) {
      step := WorkerMoves(s, p, w);
    } else if !MainWaits(s) {
      step := MainMoves(s, p);
    } else {
      forall w: nat | w < |s.errands|
        ensures s.errands[w].Free? && (s.ring.workers[w].Blocked? || s.ring.workers[w].Exited?)
      {
        assert Asleep(s, w);
      }
      forall a: nat | a < s.ring.cap ensures s.ring.cells[a].Empty? {
        SleepersMeanEmptyRing(s, p, a);
      }
      NothingInFlight(s, p);
      NothingWaiting(s, p);
      JoinEnabled(s, p);
      step := Join;
    }
  }

  lemma DoneMeansResumed(s: Pool, p: Places)
    requires Inv(s, p) && s.next == map[]
    ensures s.submitted == s.ran == multiset(s.resumed) && s.resumed == s.completed
  {
    PoolSteps.EmptyLists(s, p);
    hide Slot, SR.Inv, ListsOk, PlacesOk, ErrandsOk, ProgressOk, ShutdownOk;
    assert RanAndLive(s.errands, p.at) == {};
  }

  /** Over every run: a pool that can take no step but unprompted ones has run and resumed everything
      that was ever submitted, in order of completion. */
  lemma QuiescenceMeansDone(threads: nat, states: seq<Pool>, steps: seq<Step>)
    requires IsRun(threads, states, steps) && WellFormed(states[|steps|])
    requires forall step :: Enabled(states[|steps|], step) ==> Unprompted(step)
    ensures var s := states[|steps|];
            && Done(s)
            && s.submitted == s.ran == multiset(s.resumed)
            && s.resumed == s.completed
  {
    var s := states[|steps|];
    var p := RunInv(threads, states, steps);
    hide IsRun, Inv, Enabled;
    if !Done(s) { var _ := Progress(s, p); }
    DoneMeansResumed(s, p);
  }

  /** After the destructor has joined its threads, every one of them has taken an exit request,
      the counters meet and nothing is left behind. */
  lemma ShutdownLeavesNothing(threads: nat, states: seq<Pool>, steps: seq<Step>)
    requires IsRun(threads, states, steps) && states[|steps|].main.Closed?
    ensures var s := states[|steps|];
            && s.ring.head == s.ring.tail
            && (forall a: nat :: a < |s.ring.cells| ==> s.ring.cells[a].Empty?)
            && s.cqHead.Null? && s.backoffHead.Null?
            && s.submitted == s.ran == multiset(s.resumed)
  {
    var s := states[|steps|];
    var p := RunInv(threads, states, steps);
    hide IsRun, Slot, SR.SlotBalanced, SR.FlagsOwned;
    AllExited(s, p);
    assert forall a: nat :: a < |s.ring.cells| && s.ring.cells[a].Full? ==> a in SR.Inhabited(s.ring);
    assert SR.Ticketed(s.ring) == {};
    assert RanAndLive(s.errands, p.at) == {};
  }

  // ----- termination

  function ErrandCost(e: Errand): nat {
    match e
    case Free => 0
    case ToRun => 14
    case ToPost => 6
    case _ => 13
  }

  function ErrandsCost(es: seq<Errand>): nat {
    if es == [] then 0 else ErrandCost(es[0]) + ErrandsCost(es[1..])
  }

  function CallerCost(c: Caller): nat {
    if c.EventLoop? then 0 else 6
  }

  function MainCost(m: Main): nat {
    match m
    case User(c) => CallerCost(c)
    case Submitting(_, c) => 23 + CallerCost(c)
    case Stashing(_, c) => 22 + CallerCost(c)
    case Reversing(_, _) => 6
    case Processing(_) => 5
    case Draining => 4
    case Checking => 3
    case Walking(_) => 2
    case Resubmitting(_, _) => 1
    case Stopping(left) => 2 + 20 * left
    case Joining => 1
    case _ => 0
  }

  function ProducerCost(q: SR.Producer): nat {
    match q
    case Ready => 0
    case Advancing => 1
    case Notifying(_) => 2
    case Published(_) => 3
  }

  /** What is left to do for everything submitted so far. */
  function Work(s: Pool, p: Places): nat {
    ErrandsCost(s.errands) + MainCost(s.main) + ProducerCost(s.ring.producer)
    + 15 * |SR.Inhabited(s.ring)| + 20 * |p.backoff| + 6 * |p.stack| + 3 * |p.todo| + 2 * |p.batch| + 5 * s.ticks
  }

  /** Steps that bring some task, tick or exit request closer to its end.  The others are a worker
      looking for a task, and a retry of the push on the completion stack. */
  predicate Productive(s: Pool, step: Step)
    requires WellFormed(s) && Enabled(s, step)
  {
    match step
    case InRing(rs) => rs.LoadFlag? || rs.Notify? || rs.Advance? || rs.PollHit?
    case Load(_) => false
    case Link(_) => false
    case Swap(w, spurious) => !spurious && s.cqHead == s.errands[w].head
    case _ => true
  }

  lemma {:induction false} ErrandsCostUpdate(es: seq<Errand>, w: nat, e: Errand)
    requires w < |es|
    ensures ErrandsCost(es[w := e]) == ErrandsCost(es) - ErrandCost(es[w]) + ErrandCost(e)
  {
    if w == 0 {
      assert es[w := e][1..] == es[1..];
    } else {
      assert es[w := e][1..] == es[1..][w - 1 := e];
      ErrandsCostUpdate(es[1..], w - 1, e);
    }
  }

  lemma RingWork(s: Pool, p: Places, rs: SR.Step)
    requires Inv(s, p) && Enabled(s, InRing(rs))
    ensures var s', p' := Apply(s, InRing(rs)), NextPlaces(s, p, InRing(rs));
            Work(s', p') <= Work(s, p) && (Productive(s, InRing(rs)) ==> Work(s', p') < Work(s, p))
  {
    hide Slot, SR.Inv, ListsOk, PlacesOk, CountsOk, OrderOk, ProgressOk, ShutdownOk, ErrandsCost;
    var r' := SR.Apply(s.ring, rs);
    if rs.PollHit? {
      assert SR.Inhabited(r') == SR.Inhabited(s.ring) - {SR.SlotOf(s.ring, rs.w)};
      ErrandsCostUpdate(s.errands, rs.w, ToRun);
      assert !s.errands[rs.w].InHand() && !s.errands[rs.w].ToPost?;
    } else {
      assert SR.Inhabited(r') == SR.Inhabited(s.ring);
    }
  }

  lemma WorkerWork(s: Pool, p: Places, step: Step)
    requires Inv(s, p) && Enabled(s, step)
    requires step.Run? || step.Load? || step.Link? || step.Swap? || step.Post?
    ensures var s', p' := Apply(s, step), NextPlaces(s, p, step);
            Work(s', p') <= Work(s, p) && (Productive(s, step) ==> Work(s', p') < Work(s, p))
  {
    hide Slot, SR.Inv, ListsOk, PlacesOk, CountsOk, OrderOk, ProgressOk, ShutdownOk, ErrandsOk, ErrandsCost;
    var s' := Apply(s, step);
    assert SR.Inhabited(s'.ring) == SR.Inhabited(s.ring);
    ErrandsCostUpdate(s.errands, step.w, s'.errands[step.w]);
    assert s'.errands == s.errands[step.w := s'.errands[step.w]];
  }

  lemma PushWork(r: SR.Ring, item: SR.Item)
    requires SR.WellFormed(r) && SR.Enabled(r, SR.Push(item))
    ensures |SR.Inhabited(SR.Apply(r, SR.Push(item)))| == |SR.Inhabited(r)| + 1
    ensures ProducerCost(SR.Apply(r, SR.Push(item)).producer) == 3
  {
    hide Slot;
    assert SR.Inhabited(SR.Apply(r, SR.Push(item))) == SR.Inhabited(r) + {SR.TailSlot(r)};
  }

  lemma PushingWork(s: Pool, p: Places, step: Step)
    requires Inv(s, p) && Enabled(s, step) && (step.PushNew? || step.Repush?)
    ensures Work(Apply(s, step), NextPlaces(s, p, step)) < Work(s, p)
  {
    hide Slot, SR.Inv, PlacesOk, CountsOk, OrderOk, ProgressOk, ErrandsOk, ErrandsCost, SR.Apply, ShutdownOk, SR.Inhabited;
    if !RingFull(s) { PushWork(s.ring, SR.Job(s.main.task)); }
  }

  lemma ExitWork(s: Pool, p: Places)
    requires Inv(s, p) && Enabled(s, PushExit)
    ensures Work(Apply(s, PushExit), p) < Work(s, p)
  {
    hide Slot, SR.Inv, PlacesOk, CountsOk, OrderOk, ProgressOk, ErrandsOk, ErrandsCost, SR.Apply, ShutdownOk, SR.Inhabited, ListsOk;
    if s.main.left > 0 {
      PoolSteps.ExitHasRoom(s, p);
      PushWork(s.ring, SR.ExitRequest);
    }
  }

  lemma DrainWork(s: Pool, p: Places, step: Step)
    requires Inv(s, p) && Enabled(s, step)
    requires step.Exchange? || step.Reverse? || step.Process?
    ensures Work(Apply(s, step), NextPlaces(s, p, step)) < Work(s, p)
  {
    hide Slot, SR.Inv, PlacesOk, CountsOk, OrderOk, ProgressOk, ErrandsOk, ErrandsCost, ShutdownOk, SR.Inhabited, Push, BackoffOk;
  }

  lemma MainWork(s: Pool, p: Places, step: Step)
    requires WellFormed(s) && Enabled(s, step)
    requires step.Stash? || step.Tick? || step.Return? || step.Check? || step.Walk? || step.Join?
    ensures Work(Apply(s, step), NextPlaces(s, p, step)) < Work(s, p)
  {
    hide Slot, ErrandsCost, SR.Inhabited, Push;
  }

  /** Every step but an unprompted one keeps or lowers the work left, and a productive one lowers it:
      what has been submitted is worked off in finitely many productive steps. */
  lemma WorkDecreases(s: Pool, p: Places, step: Step)
    requires Inv(s, p) && Enabled(s, step) && !Unprompted(step)
    ensures var s', p' := Apply(s, step), NextPlaces(s, p, step);
            Work(s', p') <= Work(s, p) && (Productive(s, step) ==> Work(s', p') < Work(s, p))
  {
    assert WellFormed(s);
    hide Inv, Apply, Work;
    match step
    case InRing(rs) => RingWork(s, p, rs);
    case Run(_) => WorkerWork(s, p, step);
    case Load(_) => WorkerWork(s, p, step);
    case Link(_) => WorkerWork(s, p, step);
    case Swap(_, _) => WorkerWork(s, p, step);
    case Post(_) => WorkerWork(s, p, step);
    case Exchange => DrainWork(s, p, step);
    case Reverse => DrainWork(s, p, step);
    case Process => DrainWork(s, p, step);
    case PushNew => PushingWork(s, p, step);
    case Repush => PushingWork(s, p, step);
    case PushExit =>
      ExitWork(s, p);
      assert NextPlaces(s, p, step) == p;
    case _ => MainWork(s, p, step);
  }

  // ----- retries

  /** How many steps a worker can take before it sleeps or takes an item, as long as its slot stays as it is. */
  function PollCost(st: SR.Worker, full: bool): nat {
    match st
    case Idle => 7
    case Polling(_) => if full then 1 else 5
    case Missed(_) => 4
    case Armed(_) => 3
    case Notified(_) => 3
    case Waking(_) => if full then 2 else 6
    case Holding(item) => if item.ExitRequest? then 1 else 0
    case _ => 0
  }

  /** How many steps it can take before its push succeeds, as long as the stack stays as it is. */
  function RetryCost(e: Errand, cqHead: Ptr): nat {
    match e
    case ToLoad => 3
    case Loaded(head) => if head == cqHead then 2 else 5
    case Linked(head) => if head == cqHead then 1 else 4
    case _ => 0
  }

  function SlotFull(r: SR.Ring, w: nat): bool
    requires SR.WellFormed(r)
  {
    SR.Waits(r, w) && r.cells[SR.SlotOf(r, w)].Full?
  }

  function WorkerRetries(s: Pool, w: nat): nat
    requires WellFormed(s) && w < |s.errands|
  {
    PollCost(s.ring.workers[w], SlotFull(s.ring, w)) + RetryCost(s.errands[w], s.cqHead)
  }

  function Retries(s: Pool, n: nat): nat
    requires WellFormed(s) && n <= |s.errands|
  {
    if n == 0 then 0 else Retries(s, n - 1) + WorkerRetries(s, n - 1)
  }

  lemma {:induction false} FewerRetries(s: Pool, s': Pool, w: nat, n: nat)
    requires WellFormed(s) && WellFormed(s') && |s'.errands| == |s.errands| && n <= |s.errands| && w < |s.errands|
    requires WorkerRetries(s', w) < WorkerRetries(s, w)
    requires forall v: nat :: v < |s.errands| && v != w ==> WorkerRetries(s', v) == WorkerRetries(s, v)
    ensures if w < n then Retries(s', n) < Retries(s, n) else Retries(s', n) == Retries(s, n)
  {
    hide WorkerRetries;
    if n > 0 { FewerRetries(s, s', w, n - 1); }
  }

  /** The worker that takes an unproductive step. */
  function Actor(step: Step): int {
    match step
    case InRing(rs) =>
      (match rs
       case Take(w) => w
       case PollMiss(w) => w
       case RaiseFlag(w) => w
       case Test(w) => w
       case LowerFlag(w) => w
       case Exit(w) => w
       case _ => -1)
    case Load(w) => w
    case Link(w) => w
    case Swap(w, _) => w
    case _ => -1
  }

  lemma RingRetries(s: Pool, rs: SR.Step)
    requires WellFormed(s) && Enabled(s, InRing(rs)) && !Unprompted(InRing(rs)) && !Productive(s, InRing(rs))
    ensures var s', w := Apply(s, InRing(rs)), Actor(InRing(rs));
            && 0 <= w < |s.errands| && |s'.errands| == |s.errands| && WorkerRetries(s', w) < WorkerRetries(s, w)
            && forall v: nat :: v < |s.errands| && v != w ==> WorkerRetries(s', v) == WorkerRetries(s, v)
  {
    hide Slot;
  }

  lemma WorkerStepRetries(s: Pool, step: Step)
    requires WellFormed(s) && Enabled(s, step) && !Productive(s, step)
    requires step.Load? || step.Link? || (step.Swap? && !step.spurious)
    ensures var s', w := Apply(s, step), Actor(step);
            && 0 <= w < |s.errands| && |s'.errands| == |s.errands| && WorkerRetries(s', w) < WorkerRetries(s, w)
            && forall v: nat :: v < |s.errands| && v != w ==> WorkerRetries(s', v) == WorkerRetries(s, v)
  {
    hide Slot;
  }

  /** Every owed step but a spurious failure of the compare-and-swap lowers the work left or, at the same
      work, the retries left: only spurious failures and spurious wake-ups can go on for ever. */
  lemma OnlySpuriousStepsGoOn(s: Pool, p: Places, step: Step)
    requires Inv(s, p) && Owed(s, step) && !(step.Swap? && step.spurious)
    ensures var s', p' := Apply(s, step), NextPlaces(s, p, step);
            && |s'.errands| == |s.errands|
            && (Work(s', p') < Work(s, p)
                || (Work(s', p') == Work(s, p) && Retries(s', |s.errands|) < Retries(s, |s.errands|)))
  {
    assert WellFormed(s);
    hide Inv, Work, Apply, Enabled, Retries, NextPlaces;
    WorkDecreases(s, p, step);
    assert |Apply(s, step).errands| == |s.errands| by { SameWorkers(s, step); }
    if !Productive(s, step) {
      UnproductiveRetries(s, step);
    }
  }

  lemma SameWorkers(s: Pool, step: Step)
    requires WellFormed(s) && Enabled(s, step)
    ensures |Apply(s, step).errands| == |s.errands|
  {
    hide Slot;
  }

  lemma UnproductiveRetries(s: Pool, step: Step)
    requires WellFormed(s) && Owed(s, step) && !(step.Swap? && step.spurious) && !Productive(s, step)
    ensures var s' := Apply(s, step); |s'.errands| == |s.errands| && Retries(s', |s.errands|) < Retries(s, |s.errands|)
  {
    if step.InRing? {
      RingRetries(s, step.step);
    } else {
      WorkerStepRetries(s, step);
    }
    hide Apply, Enabled, Retries, WorkerRetries;
    FewerRetries(s, Apply(s, step), Actor(step), |s.errands|);
  }
}
