/**
 The submission queue of the thread pool: one producer (the main thread) and a fixed set
 of workers, interleaved at the granularity of their atomic operations.

 A worker takes a ticket with fetch_add, which may run ahead of the producer, and waits on
 the slot that the ticket selects.  Slots are not bound to tickets: a worker takes whatever
 its slot holds, so a fast worker that comes round to a slot may take the task that a slower
 one is waiting for.  That this never strands a task or a worker is a counting argument over
 tickets taken, pushes and pops.
 */
module SubmissionRing {
  import opened Collections
  import opened TicketArithmetic

  datatype Item = Job(task: nat) | ExitRequest

  datatype Cell = Empty | Full(item: Item)

  /** Where a worker thread stands. */
  datatype Worker =
    | Idle                   // about to take a ticket
    | Polling(ticket: nat)   // about to exchange its slot with null
    | Missed(ticket: nat)    // found the slot empty; about to raise `dequeuing`
    | Armed(ticket: nat)     // about to enter wait(), which tests the slot
    | Blocked(ticket: nat)   // asleep in wait()
    | Notified(ticket: nat)  // woken inside wait(), about to test the slot again
    | Waking(ticket: nat)    // wait() has returned; about to lower `dequeuing`
    | Holding(item: Item)    // took an item
    | Exited                 // left its loop after taking an exit request
  {
    predicate HasTicket() {
      Polling? || Missed? || Armed? || Blocked? || Notified? || Waking?
    }

    /** Has raised the slot's `dequeuing` flag and not lowered it yet. */
    predicate RaisedFlag() {
      Armed? || Blocked? || Notified? || Waking?
    }

    /** Has raised, or is about to raise, the flag of its slot. */
    predicate OwnsFlag() {
      Missed? || RaisedFlag()
    }
  }

  /** Where the producer stands inside a push. */
  datatype Producer =
    | Ready                 // outside, or about to compare-and-swap the slot
    | Published(slot: nat)  // wrote the slot; about to load `dequeuing`
    | Notifying(slot: nat)  // saw `dequeuing` raised; about to notify
    | Advancing             // about to advance the tail

  datatype Ring = Ring(
    cap: nat,
    cells: seq<Cell>,
    dequeuing: seq<bool>,
    head: nat,  // tickets taken; the head counter is STRIDE times this
    tail: nat,  // the tail counter is STRIDE times this
    producer: Producer,
    workers: seq<Worker>)

  function Init(threads: nat, cap: nat): Ring {
    Ring(cap, seq(cap, _ => Empty), seq(cap, _ => false), 0, 0, Ready, seq(threads, _ => Idle))
  }

  // ----- steps

  datatype Step =
    | Push(item: Item)
    | LoadFlag
    | Notify(woken: int)    // the worker that notify_one() wakes; -1 if it wakes none
    | Advance
    | Take(w: nat)          // fetch_add
    | PollHit(w: nat)
    | PollMiss(w: nat)
    | RaiseFlag(w: nat)
    | Test(w: nat)          // the test on entry to wait(), or after a wake-up inside it
    | Stir(w: nat)          // a spurious wake-up inside wait()
    | LowerFlag(w: nat)
    | Finish(w: nat)        // done with a task, back to the top of the loop
    | Exit(w: nat)

  /** The slot the next push goes to. */
  function TailSlot(r: Ring): nat
    requires r.cap > 0
  {
    Slot(r.tail, r.cap)
  }

  predicate WellFormed(r: Ring) {
    && |r.cells| == |r.dequeuing| == r.cap
    && 0 < |r.workers| <= r.cap
    && (r.producer.Published? || r.producer.Notifying? ==> r.producer.slot < r.cap)
  }

  predicate Waits(r: Ring, w: nat)
  {
    w < |r.workers| && r.workers[w].HasTicket()
  }

  /** The slot that worker w has a ticket for. */
  function SlotOf(r: Ring, w: nat): (a: nat)
    requires WellFormed(r) && Waits(r, w)
    ensures a < r.cap
  {
    Slot(r.workers[w].ticket, r.cap)
  }

  predicate Enabled(r: Ring, step: Step)
    requires WellFormed(r)
  {
    match step
    case Push(_) => r.producer.Ready? && r.cells[TailSlot(r)].Empty?
    case LoadFlag => r.producer.Published?
    case Notify(w) =>
      && r.producer.Notifying?
      && if w < 0 then
           // notify_one() does nothing only if nobody is asleep on the slot
           forall v: nat :: v < |r.workers| && Waits(r, v) && r.workers[v].Blocked? ==> SlotOf(r, v) != r.producer.slot
         else
           Waits(r, w) && r.workers[w].Blocked? && SlotOf(r, w) == r.producer.slot
    case Advance => r.producer.Advancing?
    case Take(w) => w < |r.workers| && r.workers[w].Idle?
    case PollHit(w) => Waits(r, w) && r.workers[w].Polling? && r.cells[SlotOf(r, w)].Full?
    case PollMiss(w) => Waits(r, w) && r.workers[w].Polling? && r.cells[SlotOf(r, w)].Empty?
    case RaiseFlag(w) => Waits(r, w) && r.workers[w].Missed?
    case Test(w) => Waits(r, w) && (r.workers[w].Armed? || r.workers[w].Notified?)
    case Stir(w) => Waits(r, w) && r.workers[w].Blocked?
    case LowerFlag(w) => Waits(r, w) && r.workers[w].Waking?
    case Finish(w) => w < |r.workers| && r.workers[w].Holding? && r.workers[w].item.Job?
    case Exit(w) => w < |r.workers| && r.workers[w].Holding? && r.workers[w].item.ExitRequest?
  }

  function SetWorker(r: Ring, w: nat, st: Worker): (r': Ring)
    requires w < |r.workers|
    ensures |r'.workers| == |r.workers| && r'.workers[w] == st
    ensures forall v :: 0 <= v < |r.workers| && v != w ==> r'.workers[v] == r.workers[v]
  {
    r.(workers := r.workers[w := st])
  }

  function Apply(r: Ring, step: Step): (r': Ring)
    requires WellFormed(r) && Enabled(r, step)
    ensures WellFormed(r') && r'.cap == r.cap && |r'.workers| == |r.workers|
  {
    match step
    case Push(item) =>
      var a := TailSlot(r);
      r.(cells := r.cells[a := Full(item)], producer := Published(a))
    case LoadFlag =>
      var a := r.producer.slot;
      r.(producer := if r.dequeuing[a] then Notifying(a) else Advancing)
    case Notify(w) =>
      var r1 := if w < 0 then r else SetWorker(r, w, Notified(r.workers[w].ticket));
      r1.(producer := Advancing)
    case Advance => r.(tail := r.tail + 1, producer := Ready)
    case Take(w) => SetWorker(r, w, Polling(r.head)).(head := r.head + 1)
    case PollHit(w) =>
      var a := SlotOf(r, w);
      SetWorker(r, w, Holding(r.cells[a].item)).(cells := r.cells[a := Empty])
    case PollMiss(w) => SetWorker(r, w, Missed(r.workers[w].ticket))
    case RaiseFlag(w) =>
      SetWorker(r, w, Armed(r.workers[w].ticket)).(dequeuing := r.dequeuing[SlotOf(r, w) := true])
    case Test(w) =>
      var k := r.workers[w].ticket;
      SetWorker(r, w, if r.cells[SlotOf(r, w)].Empty? then Blocked(k) else Waking(k))
    case Stir(w) => SetWorker(r, w, Notified(r.workers[w].ticket))
    case LowerFlag(w) =>
      SetWorker(r, w, Polling(r.workers[w].ticket)).(dequeuing := r.dequeuing[SlotOf(r, w) := false])
    case Finish(w) => SetWorker(r, w, Idle)
    case Exit(w) => SetWorker(r, w, Exited)
  }

  // ----- the invariant

  /** Pushes made so far; the tail is advanced only at the end of a push. */
  function Pushes(r: Ring): nat {
    r.tail + if r.producer.Ready? then 0 else 1
  }

  /** Workers that hold a ticket. */
  function Ticketed(r: Ring): set<nat> {
    set w: nat | w < |r.workers| && r.workers[w].HasTicket()
  }

  /** Workers whose ticket selects slot a. */
  function Claimants(r: Ring, a: nat): set<nat>
    requires WellFormed(r)
  {
    set w: nat | w < |r.workers| && Waits(r, w) && SlotOf(r, w) == a
  }

  function Inhabited(r: Ring): set<nat> {
    set a: nat | a < |r.cells| && r.cells[a].Full?
  }

  function Load(r: Ring, a: nat): nat
    requires a < |r.cells|
  {
    if r.cells[a].Full? then 1 else 0
  }

  ghost predicate TicketsTaken(r: Ring)
    requires WellFormed(r)
  {
    forall w: nat :: Waits(r, w) ==> r.workers[w].ticket < r.head
  }

  /** Tickets taken minus tickets outstanding, and pushes minus inhabited slots, both count pops. */
  ghost predicate Balanced(r: Ring) {
    r.head + |Inhabited(r)| == Pushes(r) + |Ticketed(r)|
  }

  /** The same balance, slot by slot. */
  ghost predicate SlotBalanced(r: Ring, a: nat)
    requires WellFormed(r) && a < r.cap
  {
    Visits(r.head, a, r.cap) + Load(r, a) == Visits(Pushes(r), a, r.cap) + |Claimants(r, a)|
  }

  /** Each flag has at most one owner, and an owner that raised its flag finds it raised. */
  ghost predicate FlagsOwned(r: Ring)
    requires WellFormed(r)
  {
    && (forall v: nat, w: nat :: Waits(r, v) && Waits(r, w) && v != w && r.workers[v].OwnsFlag() && r.workers[w].OwnsFlag()
          ==> SlotOf(r, v) != SlotOf(r, w))
    && (forall w: nat :: Waits(r, w) && r.workers[w].RaisedFlag() ==> r.dequeuing[SlotOf(r, w)])
  }

  /** A worker asleep on an inhabited slot is about to be notified. */
  ghost predicate WakeupsPending(r: Ring)
    requires WellFormed(r)
  {
    forall w: nat :: Waits(r, w) && r.workers[w].Blocked? && r.cells[SlotOf(r, w)].Full? ==>
      r.producer == Published(SlotOf(r, w)) || r.producer == Notifying(SlotOf(r, w))
  }

  ghost predicate ProducerInPlace(r: Ring)
    requires WellFormed(r)
  {
    r.producer.Published? || r.producer.Notifying? ==> r.producer.slot == TailSlot(r)
  }

  ghost predicate Inv(r: Ring) {
    && WellFormed(r)
    && IsPow2(r.cap)
    && ProducerInPlace(r)
    && TicketsTaken(r)
    && Balanced(r)
    && (forall a: nat :: a < r.cap ==> SlotBalanced(r, a))
    && FlagsOwned(r)
    && WakeupsPending(r)
  }

  // ----- consequences

  lemma PairCard(s: set<nat>, v: nat, w: nat)
    requires v in s && w in s && v != w
    ensures |s| >= 2
  {
    assert |s - {v} - {w}| + 2 == |s|;
  }

  /** Tickets taken exceed pushes by at most the number of workers. */
  lemma HeadLead(r: Ring)
    requires Inv(r)
    ensures r.head <= Pushes(r) + |r.workers|
  {
    RangeCard(Ticketed(r), |r.workers|);
  }

  /** No two workers ever wait on the same empty slot. */
  lemma SoleClaimant(r: Ring, v: nat, w: nat)
    requires Inv(r) && Waits(r, v) && Waits(r, w) && v != w
    requires SlotOf(r, v) == SlotOf(r, w)
    ensures r.cells[SlotOf(r, v)].Full?
  {
    hide Slot;
    var a := SlotOf(r, v);
    if r.cells[a].Empty? {
      assert SlotBalanced(r, a);
      PairCard(Claimants(r, a), v, w);
      HeadLead(r);
      if r.head <= Pushes(r) {
        VisitsMono(r.head, Pushes(r), a, r.cap);
      } else {
        VisitsWithinLap(Pushes(r), r.head, a, r.cap);
      }
    }
  }

  /** While some task sits in a slot that no worker has a ticket for, no worker with a ticket
      stands before an empty slot: every waiting worker has something to take. */
  lemma NobodyStarvesBesideWork(r: Ring, a: nat, w: nat)
    requires Inv(r) && a < r.cap && r.cells[a].Full? && Claimants(r, a) == {}
    requires Waits(r, w)
    ensures r.cells[SlotOf(r, w)].Full?
  {
    hide Slot;
    var b := SlotOf(r, w);
    assert SlotBalanced(r, a) && SlotBalanced(r, b);
    if r.cells[b].Empty? {
      assert w in Claimants(r, b);
      if r.head <= Pushes(r) {
        VisitsMono(r.head, Pushes(r), b, r.cap);
      } else {
        VisitsMono(Pushes(r), r.head, a, r.cap);
      }
    }
  }

  /** An inhabited slot never coexists with all waiting workers standing before empty slots: if
      anybody waits at all, then some waiting worker v stands before a task.  Unless the producer
      is still between its write and its notify, v is not asleep. */
  lemma InhabitedSlotIsServed(r: Ring, a: nat, w: nat) returns (v: nat)
    requires Inv(r) && a < r.cap && r.cells[a].Full? && Waits(r, w)
    ensures Waits(r, v) && r.cells[SlotOf(r, v)].Full?
    ensures r.workers[v].Blocked? ==> r.producer.Published? || r.producer.Notifying?
  {
    if Claimants(r, a) == {} {
      NobodyStarvesBesideWork(r, a, w);
      v := w;
    } else {
      v :| v in Claimants(r, a);
    }
  }

  // ----- every step keeps the invariant

  lemma InitInv(threads: nat, cap: nat)
    requires IsPow2(cap) && 0 < threads <= cap
    ensures Inv(Init(threads, cap))
  {
    var r := Init(threads, cap);
    assert Inhabited(r) == {} && Ticketed(r) == {};
    forall a: nat | a < cap ensures SlotBalanced(r, a) {
      assert Claimants(r, a) == {};
    }
  }

  /** Steps of a waiting worker that keep its ticket, and leave cells and counters alone, keep the balances. */
  lemma KeepTickets(r: Ring, r': Ring)
    requires Inv(r) && WellFormed(r')
    requires r'.cap == r.cap && r'.cells == r.cells && r'.head == r.head && Pushes(r') == Pushes(r)
    requires |r'.workers| == |r.workers|
    requires forall w: nat :: w < |r.workers| ==> r'.workers[w].HasTicket() == r.workers[w].HasTicket()
    requires forall w: nat :: Waits(r, w) && Waits(r', w) ==> r'.workers[w].ticket == r.workers[w].ticket
    ensures TicketsTaken(r') && Balanced(r')
    ensures forall a: nat :: a < r'.cap ==> SlotBalanced(r', a)
    ensures forall w: nat :: Waits(r', w) <==> Waits(r, w)
    ensures forall w: nat :: Waits(r, w) ==> SlotOf(r', w) == SlotOf(r, w)
  {
    hide Slot;
    assert forall w: nat :: Waits(r', w) <==> Waits(r, w);
    assert Ticketed(r') == Ticketed(r) && Inhabited(r') == Inhabited(r);
    forall a: nat | a < r'.cap ensures SlotBalanced(r', a) {
      assert SlotBalanced(r, a);
      assert Claimants(r', a) == Claimants(r, a);
    }
  }

  lemma WorkerStepTickets(r: Ring, step: Step)
    requires Inv(r) && Enabled(r, step)
    requires step.PollMiss? || step.RaiseFlag? || step.Test? || step.Stir? || step.LowerFlag?
    ensures var r' := Apply(r, step);
            && TicketsTaken(r') && Balanced(r') && ProducerInPlace(r')
            && (forall a: nat :: a < r'.cap ==> SlotBalanced(r', a))
            && (forall v: nat :: Waits(r', v) <==> Waits(r, v))
            && (forall v: nat :: Waits(r, v) ==> SlotOf(r', v) == SlotOf(r, v))
  {
    hide Slot, SlotBalanced, Balanced, FlagsOwned, WakeupsPending;
    KeepTickets(r, Apply(r, step));
  }

  lemma WorkerStepInv(r: Ring, step: Step)
    requires Inv(r) && Enabled(r, step)
    requires step.PollMiss? || step.RaiseFlag? || step.Test? || step.Stir? || step.LowerFlag?
    ensures Inv(Apply(r, step))
  {
    if step.PollMiss? {
      forall v: nat | Waits(r, v) && v != step.w ensures SlotOf(r, v) != SlotOf(r, step.w) {
        if SlotOf(r, v) == SlotOf(r, step.w) { SoleClaimant(r, v, step.w); }
      }
    }
    WorkerStepTickets(r, step);
    hide Slot, SlotBalanced, Balanced, TicketsTaken;
  }

  lemma ProducerStepInv(r: Ring, step: Step)
    requires Inv(r) && Enabled(r, step)
    requires step.LoadFlag? || step.Notify? || step.Advance?
    ensures Inv(Apply(r, step))
  {
    hide Slot;
    KeepTickets(r, Apply(r, step));
  }

  lemma PushInv(r: Ring, item: Item)
    requires Inv(r) && Enabled(r, Push(item))
    ensures Inv(Apply(r, Push(item)))
  {
    hide Slot;
    var r', b := Apply(r, Push(item)), TailSlot(r);
    assert Inhabited(r') == Inhabited(r) + {b};
    assert Ticketed(r') == Ticketed(r);
    forall w: nat ensures Waits(r', w) <==> Waits(r, w) {}
    forall a: nat | a < r'.cap ensures SlotBalanced(r', a) {
      assert SlotBalanced(r, a);
      assert Claimants(r', a) == Claimants(r, a);
    }
  }

  lemma TakeSlotBalance(r: Ring, w: nat, a: nat)
    requires WellFormed(r) && Enabled(r, Take(w)) && a < r.cap && SlotBalanced(r, a)
    ensures SlotBalanced(Apply(r, Take(w)), a)
  {
    hide Slot;
    var r' := Apply(r, Take(w));
    var gained := if Slot(r.head, r.cap) == a then {w} else {};
    assert Claimants(r', a) == Claimants(r, a) + gained;
    assert w !in Claimants(r, a);
  }

  lemma TakeBalance(r: Ring, w: nat)
    requires WellFormed(r) && Enabled(r, Take(w)) && Balanced(r)
    ensures Balanced(Apply(r, Take(w)))
  {
    var r' := Apply(r, Take(w));
    assert Inhabited(r') == Inhabited(r);
    assert Ticketed(r') == Ticketed(r) + {w};
  }

  lemma TakeInv(r: Ring, w: nat)
    requires Inv(r) && Enabled(r, Take(w))
    ensures Inv(Apply(r, Take(w)))
  {
    hide Slot, SlotBalanced, Balanced;
    TakeBalance(r, w);
    forall a: nat | a < r.cap ensures SlotBalanced(Apply(r, Take(w)), a) {
      TakeSlotBalance(r, w, a);
    }
    assert forall v: nat :: Waits(Apply(r, Take(w)), v) && v != w ==> Waits(r, v);
  }

  lemma PollHitSlotBalance(r: Ring, w: nat, a: nat)
    requires WellFormed(r) && Enabled(r, PollHit(w)) && a < r.cap && SlotBalanced(r, a)
    ensures SlotBalanced(Apply(r, PollHit(w)), a)
  {
    hide Slot, Visits;
    assert Claimants(Apply(r, PollHit(w)), a) == Claimants(r, a) - {w};
    assert w in Claimants(r, a) <==> SlotOf(r, w) == a;
  }

  lemma PollHitBalance(r: Ring, w: nat)
    requires WellFormed(r) && Enabled(r, PollHit(w)) && Balanced(r)
    ensures Balanced(Apply(r, PollHit(w)))
  {
    hide Slot;
    var r' := Apply(r, PollHit(w));
    assert Inhabited(r') == Inhabited(r) - {SlotOf(r, w)};
    assert Ticketed(r') == Ticketed(r) - {w};
  }

  lemma PollHitInv(r: Ring, w: nat)
    requires Inv(r) && Enabled(r, PollHit(w))
    ensures Inv(Apply(r, PollHit(w)))
  {
    hide Slot, SlotBalanced, Balanced;
    PollHitBalance(r, w);
    forall a: nat | a < r.cap ensures SlotBalanced(Apply(r, PollHit(w)), a) {
      PollHitSlotBalance(r, w, a);
    }
    assert forall v: nat :: Waits(Apply(r, PollHit(w)), v) ==> Waits(r, v) && v != w;
  }

  lemma LeaveInv(r: Ring, step: Step)
    requires Inv(r) && Enabled(r, step)
    requires step.Finish? || step.Exit?
    ensures Inv(Apply(r, step))
  {
    hide Slot;
    KeepTickets(r, Apply(r, step));
  }

  /** The invariant is inductive. */
  lemma StepInv(r: Ring, step: Step)
    requires Inv(r) && Enabled(r, step)
    ensures Inv(Apply(r, step))
  {
    match step
    case Push(item) => PushInv(r, item);
    case Take(w) => TakeInv(r, w);
    case PollHit(w) => PollHitInv(r, w);
    case Finish(_) => LeaveInv(r, step);
    case Exit(_) => LeaveInv(r, step);
    case LoadFlag => ProducerStepInv(r, step);
    case Notify(_) => ProducerStepInv(r, step);
    case Advance => ProducerStepInv(r, step);
    case _ => WorkerStepInv(r, step);
  }
}
