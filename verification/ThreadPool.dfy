/**
 The whole thread pool: the submission ring, the main thread's backoff list, the completion
 stack, and the tick that drains it.  The main thread and the workers interleave at the
 granularity of their accesses to shared memory.

 Task objects are addresses.  `next` is the memory holding their `next_` fields; a task's
 entry exists from the moment its awaiter is suspended until its parent is resumed, which may
 destroy it, so that a step that touches a destroyed task has no successor state.  The same
 address may be submitted again later, so the completion stack is exercised with ABA.
 */
module ThreadPool {
  import opened TicketArithmetic
  import opened SubmissionRing

  datatype Ptr = Null | To(task: nat)

  /** What backoffSqTailPtr points at. */
  datatype TailPtr = AtHead | AtNext(task: nat)

  /** What a worker is doing besides the ring. */
  datatype Errand =
    | Free
    | ToRun               // took a task, has not run it yet
    | ToLoad              // about to load cqHead
    | Loaded(head: Ptr)   // about to store the loaded head in the task's next_
    | Linked(head: Ptr)   // about to compare-and-swap cqHead
    | ToPost              // pushed on an empty stack; about to post a tick
  {
    predicate InHand() { ToRun? || ToLoad? || Loaded? || Linked? }
  }

  /** Who called into user code on the main thread. */
  datatype Caller = EventLoop | Drain(rest: Ptr)

  /** Where the main thread stands, outside a push in progress. */
  datatype Main =
    | User(caller: Caller)                   // user code, which may submit
    | Submitting(task: nat, caller: Caller)  // in await_suspend(), about to push
    | Stashing(task: nat, caller: Caller)    // the ring was full
    | Draining                               // about to exchange cqHead with null
    | Reversing(prev: Ptr, curr: Ptr)
    | Processing(t: Ptr)                     // top of the resume loop
    | Checking                               // drain done; about to look at the backoff list
    | Walking(t: Ptr)                        // top of the submitBackoffSQ loop
    | Resubmitting(task: nat, next: Ptr)     // has read next_, about to push
    | Stopping(left: nat)                    // destructor; exit requests left to push
    | Joining
    | Closed
    | AssertionFailed                        // an exit request found the ring full

  datatype Pool = Pool(
    ring: Ring,
    next: map<nat, Ptr>,
    backoffHead: Ptr,
    backoffTail: TailPtr,
    cqHead: Ptr,
    errands: seq<Errand>,
    main: Main,
    ticks: nat,  // ticks posted and not yet run
    submitted: multiset<nat>, ran: multiset<nat>,    // what has happened so far
    completed: seq<nat>, resumed: seq<nat>)          // and in which order

  function Init(threads: nat, cap: nat): Pool {
    Pool(SubmissionRing.Init(threads, cap), map[], Null, AtHead, Null,
         seq(threads, _ => Free), User(EventLoop), 0, multiset{}, multiset{}, [], [])
  }

  // ----- steps

  datatype Step =
    | InRing(step: SubmissionRing.Step)  // the rest of a push, or a worker inside popFromSQ
    // main thread
    | Submit(task: nat)
    | PushNew
    | Stash
    | Tick
    | Exchange
    | Reverse
    | Process
    | Return
    | Check
    | Walk
    | Repush
    | Shutdown
    | PushExit
    | Join
    // workers
    | Run(w: nat)
    | Load(w: nat)
    | Link(w: nat)
    | Swap(w: nat, spurious: bool)  // compare_exchange_weak may fail spuriously
    | Post(w: nat)

  predicate WellFormed(s: Pool) {
    SubmissionRing.WellFormed(s.ring) && |s.errands| == |s.ring.workers|
  }

  predicate RingFull(s: Pool)
    requires WellFormed(s)
  {
    s.ring.cells[TailSlot(s.ring)].Full?
  }

  /** Worker w has a task in hand. */
  predicate Holds(r: Ring, w: nat) {
    w < |r.workers| && r.workers[w].Holding? && r.workers[w].item.Job?
  }

  function Held(r: Ring, w: nat): nat
    requires Holds(r, w)
  {
    r.workers[w].item.task
  }

  predicate Enabled(s: Pool, step: Step)
    requires WellFormed(s)
  {
    match step
    case InRing(rs) =>
      && SubmissionRing.Enabled(s.ring, rs) && !rs.Push? && !rs.Finish?
      && (rs.Take? ==> s.errands[rs.w].Free?)
    case Run(w) => Holds(s.ring, w) && s.errands[w].ToRun?
    case Load(w) => Holds(s.ring, w) && s.errands[w].ToLoad?
    case Link(w) => Holds(s.ring, w) && s.errands[w].Loaded? && Held(s.ring, w) in s.next
    case Swap(w, _) => Holds(s.ring, w) && s.errands[w].Linked?
    case Post(w) => w < |s.errands| && s.errands[w].ToPost?
    case _ => s.ring.producer.Ready? && MainEnabled(s, step)
  }

  predicate MainEnabled(s: Pool, step: Step)
    requires WellFormed(s)
  {
    match step
    case Submit(t) => s.main.User? && t !in s.next
    case PushNew => s.main.Submitting?
    case Stash => s.main.Stashing? && s.main.task in s.next && (s.backoffTail.AtNext? ==> s.backoffTail.task in s.next)
    case Tick => s.main == User(EventLoop) && s.ticks > 0
    case Exchange => s.main.Draining?
    case Reverse => s.main.Reversing? && (s.main.curr.To? ==> s.main.curr.task in s.next)
    case Process => s.main.Processing? && (s.main.t.To? ==> s.main.t.task in s.next)
    case Return => s.main.User? && s.main.caller.Drain?
    case Check => s.main.Checking?
    case Walk => s.main.Walking? && (s.main.t.To? ==> s.main.t.task in s.next)
    case Repush => s.main.Resubmitting?
    // destroying a pool with pending tasks is undefined
    case Shutdown => s.main == User(EventLoop) && s.next == map[]
    case PushExit => s.main.Stopping?
    case Join => s.main.Joining? && forall w :: 0 <= w < |s.ring.workers| ==> s.ring.workers[w].Exited?
    case _ => false
  }

  function Push(s: Pool, item: Item): (s': Pool)
    requires WellFormed(s) && s.ring.producer.Ready? && !RingFull(s)
    ensures WellFormed(s')
  {
    s.(ring := SubmissionRing.Apply(s.ring, SubmissionRing.Push(item)))
  }

  /** pushToBackoffSQ */
  function Append(s: Pool, t: nat): Pool
    requires t in s.next && (s.backoffTail.AtNext? ==> s.backoffTail.task in s.next)
  {
    var next := s.next[t := Null];
    match s.backoffTail
    case AtHead => s.(next := next, backoffHead := To(t), backoffTail := AtNext(t))
    case AtNext(u) => s.(next := next[u := To(t)], backoffTail := AtNext(t))
  }

  function Apply(s: Pool, step: Step): (s': Pool)
    requires WellFormed(s) && Enabled(s, step)
    ensures WellFormed(s')
  {
    match step
    case InRing(rs) =>
      var s' := s.(ring := SubmissionRing.Apply(s.ring, rs));
      if rs.PollHit? && Holds(s'.ring, rs.w) then s'.(errands := s.errands[rs.w := ToRun]) else s'
    case Run(w) => s.(ran := s.ran + multiset{Held(s.ring, w)}, errands := s.errands[w := ToLoad])
    case Load(w) => s.(errands := s.errands[w := Loaded(s.cqHead)])
    case Link(w) =>
      var head := s.errands[w].head;
      s.(next := s.next[Held(s.ring, w) := head], errands := s.errands[w := Linked(head)])
    case Swap(w, spurious) =>
      var head := s.errands[w].head;
      if spurious || s.cqHead != head then
        s.(errands := s.errands[w := ToLoad])
      else
        s.(ring := SubmissionRing.Apply(s.ring, SubmissionRing.Finish(w)),
           cqHead := To(Held(s.ring, w)),
           completed := s.completed + [Held(s.ring, w)],
           errands := s.errands[w := if head.Null? then ToPost else Free])
    case Post(w) => s.(ticks := s.ticks + 1, errands := s.errands[w := Free])
    case _ => ApplyMain(s, step)
  }

  function ApplyMain(s: Pool, step: Step): (s': Pool)
    requires WellFormed(s) && s.ring.producer.Ready? && MainEnabled(s, step)
    ensures WellFormed(s')
  {
    match step
    case Submit(t) =>
      s.(next := s.next[t := Null], submitted := s.submitted + multiset{t}, main := Submitting(t, s.main.caller))
    case PushNew =>
      if RingFull(s) then
        s.(main := Stashing(s.main.task, s.main.caller))
      else
        Push(s, Job(s.main.task)).(main := User(s.main.caller))
    case Stash => Append(s, s.main.task).(main := User(s.main.caller))
    case Tick => s.(ticks := s.ticks - 1, main := Draining)
    case Exchange =>
      if s.cqHead.Null? then s.(main := Checking)
      else s.(cqHead := Null, main := Reversing(Null, s.cqHead))
    case Reverse =>
      (match s.main.curr
       case Null => s.(main := Processing(s.main.prev))
       case To(c) => s.(next := s.next[c := s.main.prev], main := Reversing(To(c), s.next[c])))
    case Process =>
      (match s.main.t
       case Null => s.(main := Draining)
       case To(t) => s.(next := s.next - {t}, resumed := s.resumed + [t], main := User(Drain(s.next[t]))))
    case Return => s.(main := Processing(s.main.caller.rest))
    case Check => s.(main := if s.backoffHead.Null? then User(EventLoop) else Walking(s.backoffHead))
    case Walk =>
      (match s.main.t
       case Null => s.(backoffHead := Null, backoffTail := AtHead, main := User(EventLoop))
       case To(t) => s.(main := Resubmitting(t, s.next[t])))
    case Repush =>
      if RingFull(s) then s.(backoffHead := To(s.main.task), main := User(EventLoop))
      else Push(s, Job(s.main.task)).(main := Walking(s.main.next))
    case Shutdown => s.(main := Stopping(|s.ring.workers|))
    case PushExit =>
      if s.main.left == 0 then s.(main := Joining)
      else if RingFull(s) then s.(main := AssertionFailed)
      else Push(s, ExitRequest).(main := Stopping(s.main.left - 1))
    case Join => s.(main := Closed)
  }
}
