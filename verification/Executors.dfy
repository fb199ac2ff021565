/**
 The executors of one event loop, used through runSoon() only.  Each has a queue of callbacks and
 runs it to the end when it drains; an executor that is asked to run while another one drains has
 the other one's queue call it back.  User callbacks may call runSoon() on any executor, any number
 of times, so the machine keeps the call stack explicitly.
 */
module Executors {

  datatype Callback = User(id: nat) | RunOnce(e: nat)

  datatype Frame =
    | Draining(e: nat, prev: int)  // in drain(); `prev` is what current() is restored to
    | InUser(id: nat)              // in a user callback

  const NOBODY := -1  // the null executor

  datatype Loop = Loop(
    queue: seq<seq<Callback>>,
    running: seq<bool>,
    scheduled: seq<int>,       // the executor that has been asked to run this one
    current: int,
    stack: seq<Frame>,         // innermost frame last
    submitted: seq<seq<nat>>,  // user callbacks passed to runSoon(), by executor
    ran: seq<seq<nat>>)        // user callbacks called, by executor

  function Init(n: nat): Loop {
    Loop(seq(n, _ => []), seq(n, _ => false), seq(n, _ => NOBODY), NOBODY, [], seq(n, _ => []), seq(n, _ => []))
  }

  predicate WellFormed(s: Loop) {
    var n := |s.queue|;
    && |s.running| == |s.scheduled| == |s.submitted| == |s.ran| == n
    && NOBODY <= s.current < n
    && (forall i :: 0 <= i < |s.stack| && s.stack[i].Draining? ==> s.stack[i].e < n && NOBODY <= s.stack[i].prev < n)
  }

  function Enqueue(s: Loop, e: nat, cb: Callback): Loop
    requires e < |s.queue|
  {
    s.(queue := s.queue[e := s.queue[e] + [cb]])
  }

  /** runOnce(): enters drain() unless the executor is already in it. */
  function Run(s: Loop, e: nat): Loop
    requires e < |s.queue| == |s.running| == |s.scheduled|
  {
    var s := s.(scheduled := s.scheduled[e := NOBODY]);
    if s.running[e] then s
    else s.(running := s.running[e := true], current := e, stack := s.stack + [Draining(e, s.current)])
  }

  /** runSoon() without arguments.  When it asks the current executor to call back, that executor's own
      runSoon() finds itself running; the second case here only spells out that it would do nothing else. */
  function Kick(s: Loop, e: nat): Loop
    requires WellFormed(s) && e < |s.queue|
  {
    if s.running[e] || s.scheduled[e] != NOBODY then s
    else if s.current != NOBODY then Enqueue(s, s.current, RunOnce(e)).(scheduled := s.scheduled[e := s.current])
    else Run(s, e)
  }

  datatype Step =
    | RunSoon(e: nat, id: nat)  // by the outside world, or by the user callback on top of the stack
    | Return                    // the user callback returns
    | Call                      // drain() calls the callback at the front of its queue
    | Leave                     // drain() finds its queue empty

  predicate Enabled(s: Loop, step: Step)
    requires WellFormed(s)
  {
    match step
    case RunSoon(e, _) => e < |s.queue| && (s.stack == [] || s.stack[|s.stack| - 1].InUser?)
    case Return => s.stack != [] && s.stack[|s.stack| - 1].InUser?
    case Call => s.stack != [] && s.stack[|s.stack| - 1].Draining? && s.queue[s.stack[|s.stack| - 1].e] != []
    case Leave => s.stack != [] && s.stack[|s.stack| - 1].Draining? && s.queue[s.stack[|s.stack| - 1].e] == []
  }

  predicate CallbacksExist(queue: seq<seq<Callback>>) {
    forall f, i :: 0 <= f < |queue| && 0 <= i < |queue[f]| && queue[f][i].RunOnce? ==> queue[f][i].e < |queue|
  }

  function Apply(s: Loop, step: Step): Loop
    requires WellFormed(s) && CallbacksExist(s.queue) && Enabled(s, step)
  {
    var top := |s.stack| - 1;
    match step
    case RunSoon(e, id) =>
      Kick(Enqueue(s, e, User(id)).(submitted := s.submitted[e := s.submitted[e] + [id]]), e)
    case Return => s.(stack := s.stack[..top])
    case Call =>
      var e := s.stack[top].e;
      var cb, s1 := s.queue[e][0], s.(queue := s.queue[e := s.queue[e][1..]]);
      (match cb
       case User(id) => s1.(stack := s1.stack + [InUser(id)], ran := s1.ran[e := s1.ran[e] + [id]])
       case RunOnce(f) => Run(s1, f))
    case Leave =>
      var e := s.stack[top].e;
      s.(running := s.running[e := false], current := s.stack[top].prev, stack := s.stack[..top])
  }

  // ----- the invariant

  /** Each drain() was entered from the drain() below it. */
  predicate EnteredFrom(stack: seq<Frame>, i: nat)
    requires i < |stack| && stack[i].Draining?
  {
    if i == 0 then stack[i].prev == NOBODY else stack[i - 1].Draining? && stack[i].prev == stack[i - 1].e
  }

  /** Only the innermost frame can be a user callback, and an executor drains in at most one frame. */
  ghost predicate StackOk(stack: seq<Frame>) {
    && (forall i: nat :: i < |stack| - 1 ==> stack[i].Draining?)
    && (stack != [] ==> stack[0].Draining?)
    && (forall i: nat, j: nat :: i < j < |stack| && stack[i].Draining? && stack[j].Draining? ==> stack[i].e != stack[j].e)
    && (forall i: nat :: i < |stack| && stack[i].Draining? ==> EnteredFrom(stack, i))
  }

  /** The executor whose drain() is innermost. */
  function Innermost(stack: seq<Frame>): int {
    if stack == [] then NOBODY
    else if stack[|stack| - 1].Draining? then stack[|stack| - 1].e
    else if |stack| >= 2 && stack[|stack| - 2].Draining? then stack[|stack| - 2].e
    else NOBODY
  }

  predicate IsDraining(stack: seq<Frame>, e: nat) {
    exists i :: 0 <= i < |stack| && stack[i].Draining? && stack[i].e == e
  }

  /** `running` and `current` say what the stack says. */
  ghost predicate FlagsOk(stack: seq<Frame>, running: seq<bool>, current: int) {
    && current == Innermost(stack)
    && forall e: nat :: e < |running| ==> (running[e] <==> IsDraining(stack, e))
  }

  /** An executor is called back by the queue of exactly the executor it is scheduled on, once. */
  ghost predicate CallbacksOk(queue: seq<seq<Callback>>, scheduled: seq<int>) {
    forall e: nat, f: nat :: e < |scheduled| && f < |queue| ==>
      multiset(queue[f])[RunOnce(e)] == if scheduled[e] == f then 1 else 0
  }

  /** Executor e has work only if it is draining or scheduled; and then it is not draining, and is
      scheduled on one that is. */
  predicate Served(queue: seq<seq<Callback>>, running: seq<bool>, scheduled: seq<int>, e: nat)
    requires |queue| == |running| == |scheduled|
  {
    e < |queue| ==>
      && (queue[e] != [] ==> running[e] || scheduled[e] != NOBODY)
      && (scheduled[e] != NOBODY ==> 0 <= scheduled[e] < |queue| && running[scheduled[e]] && !running[e])
  }

  ghost predicate NoneStranded(queue: seq<seq<Callback>>, running: seq<bool>, scheduled: seq<int>) {
    |queue| == |running| == |scheduled| && forall e: nat :: Served(queue, running, scheduled, e)
  }

  function Users(q: seq<Callback>): seq<nat> {
    if q == [] then [] else (if q[0].User? then [q[0].id] else []) + Users(q[1..])
  }

  /** What was submitted to an executor has run, in order, up to what is still in its queue. */
  ghost predicate Fifo(queue: seq<seq<Callback>>, submitted: seq<seq<nat>>, ran: seq<seq<nat>>) {
    && |submitted| == |ran| == |queue|
    && forall e: nat :: e < |queue| ==> submitted[e] == ran[e] + Users(queue[e])
  }

  ghost predicate Inv(s: Loop) {
    && WellFormed(s)
    && CallbacksExist(s.queue)
    && StackOk(s.stack)
    && FlagsOk(s.stack, s.running, s.current)
    && CallbacksOk(s.queue, s.scheduled)
    && NoneStranded(s.queue, s.running, s.scheduled)
    && Fifo(s.queue, s.submitted, s.ran)
  }

  // ----- queues

  lemma {:induction false} UsersAppend(q: seq<Callback>, cb: Callback)
    ensures Users(q + [cb]) == Users(q) + if cb.User? then [cb.id] else []
  {
    if q != [] {
      assert (q + [cb])[1..] == q[1..] + [cb];
      UsersAppend(q[1..], cb);
    }
  }

  lemma FifoUser(queue: seq<seq<Callback>>, submitted: seq<seq<nat>>, ran: seq<seq<nat>>, e: nat, id: nat)
    requires Fifo(queue, submitted, ran) && e < |queue|
    ensures Fifo(queue[e := queue[e] + [User(id)]], submitted[e := submitted[e] + [id]], ran)
  {
    UsersAppend(queue[e], User(id));
  }

  lemma FifoRunOnce(queue: seq<seq<Callback>>, submitted: seq<seq<nat>>, ran: seq<seq<nat>>, e: nat, f: nat)
    requires Fifo(queue, submitted, ran) && e < |queue|
    ensures Fifo(queue[e := queue[e] + [RunOnce(f)]], submitted, ran)
  {
    UsersAppend(queue[e], RunOnce(f));
  }

  lemma AppendCallbacks(queue: seq<seq<Callback>>, scheduled: seq<int>, e: nat, cb: Callback)
    requires CallbacksExist(queue) && CallbacksOk(queue, scheduled) && e < |queue| == |scheduled|
    requires cb.RunOnce? ==> cb.e < |queue| && scheduled[cb.e] == NOBODY
    ensures CallbacksExist(queue[e := queue[e] + [cb]])
    ensures CallbacksOk(queue[e := queue[e] + [cb]], if cb.RunOnce? then scheduled[cb.e := e] else scheduled)
  {
    assert multiset(queue[e] + [cb]) == multiset(queue[e]) + multiset{cb};
  }

  lemma PopCallbacks(queue: seq<seq<Callback>>, scheduled: seq<int>, e: nat)
    requires CallbacksExist(queue) && CallbacksOk(queue, scheduled) && e < |queue| == |scheduled| && queue[e] != []
    ensures CallbacksExist(queue[e := queue[e][1..]])
    ensures queue[e][0].User? ==> CallbacksOk(queue[e := queue[e][1..]], scheduled)
    ensures queue[e][0].RunOnce? ==>
              && queue[e][0].e < |queue| && scheduled[queue[e][0].e] == e
              && CallbacksOk(queue[e := queue[e][1..]], scheduled[queue[e][0].e := NOBODY])
  {
    var q := queue[e];
    assert q == [q[0]] + q[1..];
    assert multiset(q) == multiset{q[0]} + multiset(q[1..]);
    assert CallbacksExist(queue[e := q[1..]]);
  }

  lemma PopFifo(queue: seq<seq<Callback>>, submitted: seq<seq<nat>>, ran: seq<seq<nat>>, e: nat)
    requires Fifo(queue, submitted, ran) && e < |queue| && queue[e] != []
    ensures var q' := queue[e := queue[e][1..]];
            match queue[e][0]
            case User(id) => Fifo(q', submitted, ran[e := ran[e] + [id]])
            case RunOnce(_) => Fifo(q', submitted, ran)
  {}

  // ----- the stack

  lemma PushFrame(stack: seq<Frame>, running: seq<bool>, current: int, e: nat)
    requires StackOk(stack) && FlagsOk(stack, running, current) && e < |running| && !running[e]
    requires stack == [] || stack[|stack| - 1].Draining?
    ensures StackOk(stack + [Draining(e, current)])
    ensures FlagsOk(stack + [Draining(e, current)], running[e := true], e)
  {
    var stack', running' := stack + [Draining(e, current)], running[e := true];
    assert !IsDraining(stack, e);
    forall i: nat | i < |stack'| && stack'[i].Draining? ensures EnteredFrom(stack', i) {
      if i < |stack| { assert EnteredFrom(stack, i); }
    }
    forall f: nat | f < |running| ensures running'[f] <==> IsDraining(stack', f) {
      if i :| 0 <= i < |stack| && stack[i].Draining? && stack[i].e == f {
        assert stack'[i] == stack[i];
      }
      if f == e { assert stack'[|stack|].e == e; }
    }
  }

  lemma PushUser(stack: seq<Frame>, running: seq<bool>, current: int, id: nat)
    requires StackOk(stack) && FlagsOk(stack, running, current)
    requires stack != [] && stack[|stack| - 1].Draining?
    ensures StackOk(stack + [InUser(id)]) && FlagsOk(stack + [InUser(id)], running, current)
  {
    var stack' := stack + [InUser(id)];
    forall i: nat | i < |stack'| && stack'[i].Draining? ensures EnteredFrom(stack', i) {
      assert EnteredFrom(stack, i);
    }
    forall f: nat | f < |running| ensures running[f] <==> IsDraining(stack', f) {
      if i :| 0 <= i < |stack| && stack[i].Draining? && stack[i].e == f {
        assert stack'[i] == stack[i];
      }
    }
  }

  lemma PopStack(stack: seq<Frame>)
    requires StackOk(stack) && stack != []
    ensures StackOk(stack[..|stack| - 1])
    ensures var top := stack[|stack| - 1];
            Innermost(stack[..|stack| - 1]) == if top.Draining? then top.prev else Innermost(stack)
  {
    var n := |stack| - 1;
    var rest := stack[..n];
    forall i: nat | i < |rest| && rest[i].Draining? ensures EnteredFrom(rest, i) {
      assert EnteredFrom(stack, i);
    }
    if stack[n].Draining? { assert EnteredFrom(stack, n); }
  }

  lemma PopDraining(stack: seq<Frame>, e: nat)
    requires StackOk(stack) && stack != []
    ensures var top := stack[|stack| - 1];
            IsDraining(stack[..|stack| - 1], e) <==> IsDraining(stack, e) && !(top.Draining? && top.e == e)
  {
    var n := |stack| - 1;
    if i :| 0 <= i < n && stack[i].Draining? && stack[i].e == e {
      assert stack[..n][i].e == e;
    } else {
      assert forall i :: 0 <= i < n && stack[..n][i].Draining? ==> stack[i].Draining? && stack[i].e != e;
    }
    hide StackOk;
  }

  lemma PopFrame(stack: seq<Frame>, running: seq<bool>, current: int)
    requires StackOk(stack) && FlagsOk(stack, running, current) && stack != []
    ensures var top := stack[|stack| - 1]; var rest := stack[..|stack| - 1];
            && StackOk(rest)
            && (top.InUser? ==> FlagsOk(rest, running, current))
            && (top.Draining? && top.e < |running| ==> FlagsOk(rest, running[top.e := false], top.prev))
  {
    hide StackOk, IsDraining, Innermost;
    PopStack(stack);
    forall e: nat | e < |running|
      ensures IsDraining(stack[..|stack| - 1], e) <==>
                IsDraining(stack, e) && !(stack[|stack| - 1].Draining? && stack[|stack| - 1].e == e)
    {
      PopDraining(stack, e);
    }
  }

  lemma CurrentRuns(stack: seq<Frame>, running: seq<bool>, current: int)
    requires StackOk(stack) && FlagsOk(stack, running, current)
    ensures 0 <= current ==> IsDraining(stack, current)
    ensures 0 <= current < |running| ==> running[current]
    ensures current == NOBODY <==> stack == []
  {}

  // ----- preservation

  lemma InitInv(n: nat)
    ensures Inv(Init(n))
  {}

  /** Entering drain() for executor e, which may be the one executor that is not served. */
  lemma RunInv(s: Loop, e: nat)
    requires WellFormed(s) && CallbacksExist(s.queue) && StackOk(s.stack) && FlagsOk(s.stack, s.running, s.current)
    requires Fifo(s.queue, s.submitted, s.ran) && e < |s.queue| && !s.running[e]
    requires s.stack == [] || s.stack[|s.stack| - 1].Draining?
    requires CallbacksOk(s.queue, s.scheduled[e := NOBODY])
    requires forall f: nat :: f != e ==> Served(s.queue, s.running, s.scheduled, f)
    ensures Inv(Run(s, e))
  {
    PushFrame(s.stack, s.running, s.current, e);
    var s' := Run(s, e);
    forall f: nat ensures Served(s'.queue, s'.running, s'.scheduled, f) {
      assert f != e ==> Served(s.queue, s.running, s.scheduled, f);
    }
  }

  lemma RunSoonInv(s: Loop, e: nat, id: nat)
    requires Inv(s) && Enabled(s, RunSoon(e, id))
    ensures Inv(Apply(s, RunSoon(e, id)))
  {
    hide CallbacksExist, StackOk, CallbacksOk, Fifo, FlagsOk;
    var s1 := Enqueue(s, e, User(id)).(submitted := s.submitted[e := s.submitted[e] + [id]]);
    AppendCallbacks(s.queue, s.scheduled, e, User(id));
    FifoUser(s.queue, s.submitted, s.ran, e, id);
    CurrentRuns(s.stack, s.running, s.current);
    assert Served(s.queue, s.running, s.scheduled, e);
    forall f: nat | f != e ensures Served(s1.queue, s1.running, s1.scheduled, f) {
      assert Served(s.queue, s.running, s.scheduled, f);
    }
    if s.running[e] || s.scheduled[e] != NOBODY {
      assert Served(s1.queue, s1.running, s1.scheduled, e);
    } else if s.current != NOBODY {
      KickCurrent(s1, e);
    } else {
      assert s1.scheduled[e := NOBODY] == s1.scheduled;
      RunInv(s1, e);
    }
  }

  lemma KickCurrent(s: Loop, e: nat)
    requires WellFormed(s) && CallbacksExist(s.queue) && StackOk(s.stack) && FlagsOk(s.stack, s.running, s.current)
    requires Fifo(s.queue, s.submitted, s.ran) && CallbacksOk(s.queue, s.scheduled)
    requires e < |s.queue| && !s.running[e] && s.scheduled[e] == NOBODY && s.current != NOBODY
    requires forall f: nat :: f != e ==> Served(s.queue, s.running, s.scheduled, f)
    ensures Inv(Enqueue(s, s.current, RunOnce(e)).(scheduled := s.scheduled[e := s.current]))
  {
    CurrentRuns(s.stack, s.running, s.current);
    hide CallbacksExist, StackOk, CallbacksOk, Fifo, FlagsOk;
    AppendCallbacks(s.queue, s.scheduled, s.current, RunOnce(e));
    FifoRunOnce(s.queue, s.submitted, s.ran, s.current, e);
    var s' := Enqueue(s, s.current, RunOnce(e)).(scheduled := s.scheduled[e := s.current]);
    forall f: nat ensures Served(s'.queue, s'.running, s'.scheduled, f) {
      assert f != e ==> Served(s.queue, s.running, s.scheduled, f);
    }
  }

  lemma ReturnInv(s: Loop)
    requires Inv(s) && Enabled(s, Return)
    ensures Inv(Apply(s, Return))
  {
    hide CallbacksExist, StackOk, CallbacksOk, Fifo, FlagsOk, NoneStranded;
    PopFrame(s.stack, s.running, s.current);
  }

  /** An empty queue calls nobody back, so nobody is scheduled on its executor. */
  lemma EmptyCallsNobody(queue: seq<seq<Callback>>, scheduled: seq<int>, e: nat, f: nat)
    requires CallbacksOk(queue, scheduled) && e < |queue| && f < |scheduled| && queue[e] == []
    ensures scheduled[f] != e
  {
    assert multiset(queue[e])[RunOnce(f)] == 0;
  }

  lemma LeaveInv(s: Loop)
    requires Inv(s) && Enabled(s, Leave)
    ensures Inv(Apply(s, Leave))
  {
    hide CallbacksExist, StackOk, CallbacksOk, Fifo, FlagsOk;
    var e, s' := s.stack[|s.stack| - 1].e, Apply(s, Leave);
    PopFrame(s.stack, s.running, s.current);
    forall f: nat ensures Served(s'.queue, s'.running, s'.scheduled, f) {
      assert Served(s.queue, s.running, s.scheduled, f);
      if f < |s.queue| { EmptyCallsNobody(s.queue, s.scheduled, e, f); }
    }
  }

  lemma TopRuns(s: Loop)
    requires Inv(s) && s.stack != [] && s.stack[|s.stack| - 1].Draining?
    ensures s.running[s.stack[|s.stack| - 1].e]
  {
    hide CallbacksExist, StackOk, CallbacksOk, Fifo, NoneStranded;
    assert IsDraining(s.stack, s.stack[|s.stack| - 1].e);
  }

  lemma CallUserInv(s: Loop)
    requires Inv(s) && Enabled(s, Call) && s.queue[s.stack[|s.stack| - 1].e][0].User?
    ensures Inv(Apply(s, Call))
  {
    hide CallbacksExist, StackOk, CallbacksOk, Fifo, FlagsOk;
    var e, s' := s.stack[|s.stack| - 1].e, Apply(s, Call);
    TopRuns(s);
    PopCallbacks(s.queue, s.scheduled, e);
    PopFifo(s.queue, s.submitted, s.ran, e);
    PushUser(s.stack, s.running, s.current, s.queue[e][0].id);
    forall f: nat ensures Served(s'.queue, s'.running, s'.scheduled, f) {
      assert Served(s.queue, s.running, s.scheduled, f);
    }
  }

  lemma CallRunOnceInv(s: Loop)
    requires Inv(s) && Enabled(s, Call) && s.queue[s.stack[|s.stack| - 1].e][0].RunOnce?
    ensures Inv(Apply(s, Call))
  {
    var e := s.stack[|s.stack| - 1].e;
    TopRuns(s);
    hide CallbacksExist, StackOk, CallbacksOk, Fifo, FlagsOk;
    PopCallbacks(s.queue, s.scheduled, e);
    PopFifo(s.queue, s.submitted, s.ran, e);
    var s1, g := s.(queue := s.queue[e := s.queue[e][1..]]), s.queue[e][0].e;
    assert Served(s.queue, s.running, s.scheduled, g);
    forall f: nat | f != g ensures Served(s1.queue, s1.running, s1.scheduled, f) {
      assert Served(s.queue, s.running, s.scheduled, f);
    }
    RunInv(s1, g);
  }

  lemma StepInv(s: Loop, step: Step)
    requires Inv(s) && Enabled(s, step)
    ensures Inv(Apply(s, step))
  {
    assert WellFormed(s);
    hide Inv, Apply;
    match step
    case RunSoon(e, id) => RunSoonInv(s, e, id);
    case Return => ReturnInv(s);
    case Leave => LeaveInv(s);
    case Call =>
      if s.queue[s.stack[|s.stack| - 1].e][0].User? { CallUserInv(s); } else { CallRunOnceInv(s); }
  }

  // ----- whole runs

  ghost predicate IsRun(n: nat, states: seq<Loop>, steps: seq<Step>) {
    && |states| == |steps| + 1 && states[0] == Init(n)
    && forall i: nat :: i < |steps| ==>
         && WellFormed(states[i]) && CallbacksExist(states[i].queue) && Enabled(states[i], steps[i])
         && states[i + 1] == Apply(states[i], steps[i])
  }

  lemma {:induction false} RunsInv(n: nat, states: seq<Loop>, steps: seq<Step>)
    requires IsRun(n, states, steps)
    ensures Inv(states[|steps|])
    decreases |steps|
  {
    hide Inv, Apply, Enabled, CallbacksExist;
    if steps == [] {
      InitInv(n);
    } else {
      var k := |steps| - 1;
      RunsInv(n, states[..k + 1], steps[..k]);
      StepInv(states[k], steps[k]);
    }
  }

  /** Over every run, at most one user callback is on the stack, and it is the innermost frame. */
  lemma NeverNested(n: nat, states: seq<Loop>, steps: seq<Step>, i: nat, j: nat)
    requires IsRun(n, states, steps)
    requires var stack := states[|steps|].stack; i < |stack| && j < |stack| && stack[i].InUser? && stack[j].InUser?
    ensures i == j == |states[|steps|].stack| - 1
  {
    RunsInv(n, states, steps);
  }

  /** Over every run, when the outermost drain() has returned every queue is empty, and every callback
      has been called once, in the order of submission to its executor. */
  lemma NothingStranded(n: nat, states: seq<Loop>, steps: seq<Step>)
    requires IsRun(n, states, steps) && states[|steps|].stack == []
    ensures Inv(states[|steps|])
    ensures var s := states[|steps|];
            forall e: nat :: e < |s.queue| ==> s.queue[e] == [] && s.ran[e] == s.submitted[e]
  {
    RunsInv(n, states, steps);
    hide IsRun, CallbacksExist, CallbacksOk;
    var s := states[|steps|];
    forall e: nat | e < |s.queue| ensures s.queue[e] == [] && s.ran[e] == s.submitted[e] {
      assert Served(s.queue, s.running, s.scheduled, e);
      assert !IsDraining(s.stack, e);
    }
  }

  /** What a step puts into the queue of executor f: a user callback submitted to it and, if f is the current
      executor, the request to run an executor that is neither draining nor asked for yet. */
  function PutBy(s: Loop, step: Step, f: nat): seq<Callback>
    requires WellFormed(s) && Enabled(s, step)
  {
    match step
    case RunSoon(e, id) =>
      (if f == e then [User(id)] else [])
      + if !s.running[e] && s.scheduled[e] == NOBODY && f == s.current then [RunOnce(e)] else []
    case _ => []
  }

  /** What a step calls out of the queue of executor f. */
  function CalledBy(s: Loop, step: Step, f: nat): seq<Callback>
    requires WellFormed(s) && Enabled(s, step)
  {
    if step.Call? && f == s.stack[|s.stack| - 1].e then [s.queue[f][0]] else []
  }

  ghost predicate Legal(states: seq<Loop>, steps: seq<Step>) {
    |states| == |steps| + 1 && forall i: nat :: i < |steps| ==> WellFormed(states[i]) && Enabled(states[i], steps[i])
  }

  ghost function Put(states: seq<Loop>, steps: seq<Step>, f: nat): seq<Callback>
    requires Legal(states, steps)
  {
    if steps == [] then []
    else var k := |steps| - 1; Put(states[..k + 1], steps[..k], f) + PutBy(states[k], steps[k], f)
  }

  ghost function Called(states: seq<Loop>, steps: seq<Step>, f: nat): seq<Callback>
    requires Legal(states, steps)
  {
    if steps == [] then []
    else var k := |steps| - 1; Called(states[..k + 1], steps[..k], f) + CalledBy(states[k], steps[k], f)
  }

  /** Over every run, each queue is called in the order in which it was filled, the requests to run other
      executors included. */
  lemma {:induction false} CalledInOrder(n: nat, states: seq<Loop>, steps: seq<Step>, f: nat)
    requires IsRun(n, states, steps) && f < n
    ensures Legal(states, steps) && |states[|steps|].queue| == n
    ensures Put(states, steps, f) == Called(states, steps, f) + states[|steps|].queue[f]
    decreases |steps|
  {
    hide Inv, Apply, Enabled, CallbacksExist, PutBy, CalledBy;
    if steps != [] {
      var k := |steps| - 1;
      assert IsRun(n, states[..k + 1], steps[..k]);
      CalledInOrder(n, states[..k + 1], steps[..k], f);
      RunsInv(n, states[..k + 1], steps[..k]);
      QueueStep(states[k], steps[k], f);
      var before, q := states[..k + 1], states[..k + 1][k].queue[f];
      assert q == states[k].queue[f];
      InOrderThen(Put(before, steps[..k], f), Called(before, steps[..k], f), q,
                  PutBy(states[k], steps[k], f), CalledBy(states[k], steps[k], f), states[k + 1].queue[f]);
    }
  }

  lemma InOrderThen(put: seq<Callback>, called: seq<Callback>, q: seq<Callback>, more: seq<Callback>, less: seq<Callback>, q': seq<Callback>)
    requires put == called + q && q + more == less + q'
    ensures put + more == called + less + q'
  {
    assert put + more == called + (q + more);
  }

  lemma QueueStep(s: Loop, step: Step, f: nat)
    requires Inv(s) && Enabled(s, step) && f < |s.queue|
    ensures var s' := Apply(s, step);
            |s'.queue| == |s.queue| && s.queue[f] + PutBy(s, step, f) == CalledBy(s, step, f) + s'.queue[f]
  {
    CurrentRuns(s.stack, s.running, s.current);
    hide StackOk, CallbacksOk, Fifo, FlagsOk, NoneStranded, CallbacksExist, Apply;
    match step
    case RunSoon(e, id) => KickQueue(s, e, id, f);
    case Call => CallQueue(s, f);
    case _ => OtherQueue(s, step, f);
  }

  lemma CallQueue(s: Loop, f: nat)
    requires WellFormed(s) && CallbacksExist(s.queue) && Enabled(s, Call) && f < |s.queue|
    ensures var s' := Apply(s, Call); |s'.queue| == |s.queue| && s.queue[f] == CalledBy(s, Call, f) + s'.queue[f]
  {
    var q := s.queue[s.stack[|s.stack| - 1].e];
    assert q == [q[0]] + q[1..];
  }

  lemma OtherQueue(s: Loop, step: Step, f: nat)
    requires WellFormed(s) && CallbacksExist(s.queue) && Enabled(s, step) && !step.Call? && !step.RunSoon? && f < |s.queue|
    ensures Apply(s, step).queue == s.queue
  {}

  lemma KickQueue(s: Loop, e: nat, id: nat, f: nat)
    requires WellFormed(s) && e < |s.queue| && f < |s.queue| && (0 <= s.current < |s.running| ==> s.running[s.current])
    requires Enabled(s, RunSoon(e, id)) && CallbacksExist(s.queue)
    ensures var s' := Apply(s, RunSoon(e, id));
            |s'.queue| == |s.queue| && s'.queue[f] == s.queue[f] + PutBy(s, RunSoon(e, id), f)
  {
    var s1 := Enqueue(s, e, User(id)).(submitted := s.submitted[e := s.submitted[e] + [id]]);
    assert s1.running == s.running && s1.scheduled == s.scheduled && s1.current == s.current;
  }

  /** Over every run, a callback that has not been called is in the queue of an executor that is draining,
      or of one that the queue of a draining executor is going to call. */
  lemma PendingIsReachable(n: nat, states: seq<Loop>, steps: seq<Step>, e: nat)
    requires IsRun(n, states, steps)
    requires var s := states[|steps|]; e < |s.queue| && e < |s.ran| && e < |s.submitted| && s.ran[e] != s.submitted[e]
    ensures var s := states[|steps|];
            || IsDraining(s.stack, e)
            || (exists f: nat :: f < |s.queue| && IsDraining(s.stack, f) && RunOnce(e) in s.queue[f])
  {
    RunsInv(n, states, steps);
    var s := states[|steps|];
    hide IsRun, CallbacksExist;
    assert s.queue[e] != [];
    assert Served(s.queue, s.running, s.scheduled, e);
    if !s.running[e] {
      var f := s.scheduled[e];
      assert multiset(s.queue[f])[RunOnce(e)] == 1;
      assert RunOnce(e) in s.queue[f];
    }
  }
}
