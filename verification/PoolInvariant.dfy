/**
 Where every task of the pool is, and how the pointers in memory represent the pool's lists.
 The places are recorded beside the machine, in a map from live tasks: being a map, it gives
 each task exactly one place.
 */
module PoolInvariant {
  import opened TicketArithmetic
  import SR = SubmissionRing
  import opened ThreadPool

  datatype Place =
    | Entering        // in await_suspend(), neither pushed nor stashed yet
    | Backoff
    | InSlot(a: nat)
    | InHand(w: nat)
    | Completed       // on the completion stack
    | InBatch         // taken off the stack by the drain in progress

  datatype Places = Places(
    at: map<nat, Place>,
    backoff: seq<nat>,  // the backoff list that has not been pushed yet
    stack: seq<nat>,    // the completion stack, top first
    todo: seq<nat>,     // the part of the batch that is not reversed yet
    batch: seq<nat>)    // the part of the batch that is in completion order

  const NOWHERE := Places(map[], [], [], [], [])

  function NextPlaces(s: Pool, p: Places, step: Step): Places
    requires WellFormed(s) && Enabled(s, step)
  {
    match step
    case InRing(rs) =>
      if rs.PollHit? && s.ring.cells[SR.SlotOf(s.ring, rs.w)].item.Job? then
        p.(at := p.at[s.ring.cells[SR.SlotOf(s.ring, rs.w)].item.task := InHand(rs.w)])
      else p
    case Swap(w, spurious) =>
      if spurious || s.cqHead != s.errands[w].head then p
      else p.(at := p.at[Held(s.ring, w) := Completed], stack := [Held(s.ring, w)] + p.stack)
    case Submit(t) => p.(at := p.at[t := Entering])
    case PushNew => if RingFull(s) then p else p.(at := p.at[s.main.task := InSlot(SR.TailSlot(s.ring))])
    case Stash => p.(at := p.at[s.main.task := Backoff], backoff := p.backoff + [s.main.task])
    case Exchange => p.(at := map t | t in p.at :: if p.at[t].Completed? then InBatch else p.at[t],
                        todo := p.stack, stack := [])
    case Reverse => if |p.todo| == 0 then p else p.(batch := [p.todo[0]] + p.batch, todo := p.todo[1..])
    case Process => if |p.batch| == 0 then p else p.(at := p.at - {p.batch[0]}, batch := p.batch[1..])
    case Repush =>
      if RingFull(s) || |p.backoff| == 0 then p
      else p.(at := p.at[p.backoff[0] := InSlot(SR.TailSlot(s.ring))], backoff := p.backoff[1..])
    case _ => p
  }

  // ----- pointers and lists

  function PtrAt(xs: seq<nat>, i: nat): Ptr {
    if i < |xs| then To(xs[i]) else Null
  }

  /** `p` starts a null-terminated list through the next_ fields, holding xs. */
  ghost predicate Chain(next: map<nat, Ptr>, p: Ptr, xs: seq<nat>) {
    && p == PtrAt(xs, 0)
    && (forall i: nat :: i < |xs| ==> xs[i] in next && next[xs[i]] == PtrAt(xs, i + 1))
    && (forall i: nat, j: nat :: i < j < |xs| ==> xs[i] != xs[j])
  }

  /** Within tick(), before the drain's last exchange. */
  predicate InDrain(m: Main) {
    || m.Draining? || m.Reversing? || m.Processing?
    || ((m.User? || m.Submitting? || m.Stashing?) && m.caller.Drain?)
  }

  predicate InWalk(m: Main) { m.Walking? || m.Resubmitting? }

  predicate InTick(m: Main) { InDrain(m) || m.Checking? || InWalk(m) }

  predicate InShutdown(m: Main) { m.Stopping? || m.Joining? || m.Closed? || m.AssertionFailed? }

  /** Head of what is left of the batch, as the main thread's local variables have it. */
  function BatchPtr(m: Main): Ptr {
    match m
    case Reversing(prev, _) => prev
    case Processing(t) => t
    case User(Drain(rest)) => rest
    case Submitting(_, Drain(rest)) => rest
    case Stashing(_, Drain(rest)) => rest
    case _ => Null
  }

  function TodoPtr(m: Main): Ptr {
    if m.Reversing? then m.curr else Null
  }

  function BackoffPtr(m: Main, head: Ptr): Ptr {
    match m
    case Walking(t) => t
    case Resubmitting(t, _) => To(t)
    case _ => head
  }

  ghost predicate BackoffOk(next: map<nat, Ptr>, head: Ptr, tail: TailPtr, m: Main, xs: seq<nat>) {
    && Chain(next, BackoffPtr(m, head), xs)
    && (m.Resubmitting? ==> m.next == PtrAt(xs, 1))
    && (xs != [] ==> tail == AtNext(xs[|xs| - 1]))
    && (xs == [] && !InWalk(m) ==> tail == AtHead)
  }

  ghost predicate ListsOk(next: map<nat, Ptr>, cqHead: Ptr, head: Ptr, tail: TailPtr, m: Main, p: Places) {
    && Chain(next, cqHead, p.stack)
    && Chain(next, TodoPtr(m), p.todo)
    && Chain(next, BatchPtr(m), p.batch)
    && BackoffOk(next, head, tail, m, p.backoff)
  }

  // ----- places

  ghost predicate IsAt(r: SR.Ring, m: Main, p: Places, t: nat, place: Place) {
    match place
    case Entering => (m.Submitting? || m.Stashing?) && m.task == t
    case Backoff => t in p.backoff
    case InSlot(a) => a < |r.cells| && r.cells[a] == SR.Full(SR.Job(t))
    case InHand(w) => Holds(r, w) && Held(r, w) == t
    case Completed => t in p.stack
    case InBatch => t in p.todo || t in p.batch
  }

  ghost predicate Recorded(p: Places, t: nat, place: Place) {
    t in p.at && p.at[t] == place
  }

  predicate JobIn(r: SR.Ring, a: nat) {
    a < |r.cells| && r.cells[a].Full? && r.cells[a].item.Job?
  }

  /** Places are where they say, and everything found in a place is recorded there. */
  ghost predicate PlacesOk(r: SR.Ring, m: Main, live: set<nat>, p: Places) {
    && p.at.Keys == live
    && (forall t :: t in p.at ==> IsAt(r, m, p, t, p.at[t]))
    && (forall t :: t in p.backoff ==> Recorded(p, t, Backoff))
    && (forall t :: t in p.stack ==> Recorded(p, t, Completed))
    && (forall t :: t in p.todo ==> Recorded(p, t, InBatch) && t !in p.batch)
    && (forall t :: t in p.batch ==> Recorded(p, t, InBatch))
    && (m.Submitting? || m.Stashing? ==> Recorded(p, m.task, Entering))
    && (forall a: nat :: JobIn(r, a) ==> Recorded(p, r.cells[a].item.task, InSlot(a)))
    && (forall w: nat :: Holds(r, w) ==> Recorded(p, Held(r, w), InHand(w)))
  }

  // ----- workers

  ghost predicate ErrandsOk(r: SR.Ring, errands: seq<Errand>, next: map<nat, Ptr>) {
    && |errands| == |r.workers|
    && forall w: nat :: w < |errands| ==>
         && (errands[w].InHand() <==> Holds(r, w))
         && (errands[w].ToPost? ==> r.workers[w].Idle?)
         && (errands[w].Linked? ==> Held(r, w) in next && next[Held(r, w)] == errands[w].head)
  }

  // ----- counting

  predicate HasRun(errands: seq<Errand>, place: Place) {
    match place
    case InHand(w) => w < |errands| && !errands[w].ToRun?
    case Completed => true
    case InBatch => true
    case _ => false
  }

  function RanAndLive(errands: seq<Errand>, at: map<nat, Place>): set<nat> {
    set t | t in at && HasRun(errands, at[t])
  }

  /** Every submission has been resumed once or is live; it has run once exactly if it is past running. */
  ghost predicate CountsOk(submitted: multiset<nat>, ran: multiset<nat>, resumed: multiset<nat>,
                           errands: seq<Errand>, at: map<nat, Place>) {
    && submitted == resumed + multiset(at.Keys)
    && ran == resumed + multiset(RanAndLive(errands, at))
  }

  function Reversed(xs: seq<nat>): seq<nat> {
    if xs == [] then [] else Reversed(xs[1..]) + [xs[0]]
  }

  /** Parents are resumed in the order in which their tasks completed. */
  ghost predicate OrderOk(completed: seq<nat>, resumed: seq<nat>, p: Places) {
    completed == resumed + Reversed(p.todo) + p.batch + Reversed(p.stack)
  }

  // ----- progress

  ghost predicate SomeoneToPost(errands: seq<Errand>) {
    exists w: nat :: w < |errands| && errands[w].ToPost?
  }

  /** Some task is past the backoff list. */
  ghost predicate SomethingInFlight(at: map<nat, Place>) {
    exists t :: t in at && !at[t].Entering? && !at[t].Backoff?
  }

  ghost predicate ProgressOk(ticks: nat, errands: seq<Errand>, m: Main, p: Places) {
    && (p.stack != [] ==> ticks > 0 || SomeoneToPost(errands) || InDrain(m))
    && (p.backoff != [] || m.Stashing? ==> SomethingInFlight(p.at) || InTick(m))
  }

  // ----- shutdown

  predicate ExitIn(r: SR.Ring, a: nat) {
    a < |r.cells| && r.cells[a].Full? && r.cells[a].item.ExitRequest?
  }

  predicate TookExit(r: SR.Ring, w: nat) {
    w < |r.workers| && (r.workers[w].Exited? || (r.workers[w].Holding? && r.workers[w].item.ExitRequest?))
  }

  function Leavers(r: SR.Ring): set<nat> {
    set w: nat | w < |r.workers| && TookExit(r, w)
  }

  /** Exit requests pushed so far. */
  function ExitsPushed(r: SR.Ring, m: Main): int {
    |r.workers| - if m.Stopping? then m.left else 0
  }

  /** One of the tickets of the exit requests selects slot a. */
  ghost predicate ExitTicket(r: SR.Ring, exits: int, a: nat, k: nat) {
    r.cap > 0 && SR.Pushes(r) - exits <= k < SR.Pushes(r) && Slot(k, r.cap) == a
  }

  ghost predicate StoppingOk(r: SR.Ring, m: Main) {
    && !m.AssertionFailed?
    && 0 <= ExitsPushed(r, m)
    && ExitsPushed(r, m) == |SR.Inhabited(r)| + |Leavers(r)|
    && (forall a: nat :: ExitIn(r, a) ==> exists k: nat :: ExitTicket(r, ExitsPushed(r, m), a, k))
    && (m.Closed? ==> r.producer.Ready? && forall w: nat :: w < |r.workers| ==> r.workers[w].Exited?)
  }

  ghost predicate NoExits(r: SR.Ring) {
    && (forall a: nat :: !ExitIn(r, a))
    && (forall w: nat :: !TookExit(r, w))
  }

  ghost predicate ShutdownOk(r: SR.Ring, m: Main, p: Places) {
    if InShutdown(m) then p == NOWHERE && StoppingOk(r, m) else NoExits(r)
  }

  ghost predicate Inv(s: Pool, p: Places) {
    && WellFormed(s)
    && SR.Inv(s.ring)
    && ListsOk(s.next, s.cqHead, s.backoffHead, s.backoffTail, s.main, p)
    && PlacesOk(s.ring, s.main, s.next.Keys, p)
    && ErrandsOk(s.ring, s.errands, s.next)
    && CountsOk(s.submitted, s.ran, multiset(s.resumed), s.errands, p.at)
    && OrderOk(s.completed, s.resumed, p)
    && ProgressOk(s.ticks, s.errands, s.main, p)
    && ShutdownOk(s.ring, s.main, p)
  }
}
