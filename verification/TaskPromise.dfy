/**
 A task: its promise, the awaiter it is currently suspended on, and the TaskAwaiter through which
 its own parent drives it.

 The body of the task, the awaiters it suspends on and the parent are the environment.  The
 parent follows the awaiter protocol on the TaskAwaiter; the awaiters give any answers that the
 protocol allows, and may resume the task's handle, or have the task cancelled, from inside the
 calls made on them.  Every call the promise makes on an awaiter goes through AwaiterProtocol,
 so that its legality is a proof obligation here.
 */
module TaskPromise {
  import opened AwaiterProtocol

  /** What resuming the task's proxy handle does. */
  datatype OnResume = Unset | DoResume | DoNothing | DoResumeAfterCancel

  datatype Body = NotBegun | OnCpu | Suspended | Ended

  /** What the task reported to its parent. */
  datatype Result = NoResult | Value | Exception | WasCancelled

  // The words that state_ and cancelState_ share with the pointers of the current awaiter.
  const READY := 0
  const RUNNING := 1
  const NONE := 0
  const REQUESTED := 1

  class Task {
    // BasePromise
    var object_: nat     // state_, or the address of the current awaiter, which is above RUNNING
    var functions_: nat  // cancelState_, or the address of its function table, which is above REQUESTED
    var resumeFn: OnResume
    var hasParent: bool
    var body: Body
    var awaiter: Checker  // where the call protocol with the current awaiter stands
    var queued: nat       // steps of this task waiting in the executor
    // TaskAwaiter
    var hasPromise: bool
    var result: Result
    var self: Checker     // where the parent's call protocol with the TaskAwaiter stands
    // what has happened
    var cancels: nat        // calls of cancel()
    var continuations: nat  // calls of continuation()
    var awaited: nat        // awaiters that the body has awaited so far
    var forgotten: bool     // an await_suspend() threw after the task was cancelled from inside it

    predicate HasAwaiter()
      reads this
    {
      object_ > RUNNING
    }

    /** A cancellation is to be delivered at the next co_await. */
    predicate CancelDue()
      reads this
    {
      !HasAwaiter() && functions_ == REQUESTED
    }

    /** The promise and the current awaiter agree on where they are. */
    ghost predicate InStep()
      reads this
    {
      match body
      case NotBegun =>
        && object_ == READY && awaiter.phase.Initial? && awaited == 0
        && if resumeFn.Unset? then !hasParent && queued == 0
           else hasParent && (if resumeFn.DoResume? then queued == 0 else resumeFn.DoNothing? && queued == 1)
      case OnCpu =>
        object_ == RUNNING && hasParent && queued == 0 && awaiter.MayDestroy() && !awaiter.phase.Cancelled?
      case Suspended =>
        && hasParent
        && if HasAwaiter() then
             && queued == 0 && functions_ > REQUESTED && awaiter.Pending()
             && resumeFn == (if awaiter.phase.Running? then DoResume else DoResumeAfterCancel)
           else
             object_ == READY && queued == 1 && awaiter.phase.Ready? && resumeFn.DoNothing?
      case Ended => !hasParent && queued == 0 && awaiter.MayDestroy()
    }

    /** Where the cancellation is, if there was one. */
    ghost predicate CancelTracked()
      reads this
    {
      && cancels <= 1
      && (cancels == 0 ==>
            !CancelDue() && !awaiter.phase.Cancelling? && !awaiter.phase.ReadyAfterCancel? && !awaiter.phase.Cancelled?)
      && (forgotten ==> cancels == 1)
    }

    /** Until the task ends, a cancellation is being tried on the current awaiter, or is going to be
        tried on the next one, exactly if it has not been forgotten. */
    ghost predicate CancelKept()
      reads this
    {
      cancels == 1 && !body.Ended? ==> (CancelDue() || awaiter.phase.Cancelling? <==> !forgotten)
    }

    /** What the parent sees. */
    ghost predicate ParentInStep()
      reads this
    {
      match self.phase
      case Initial => body.NotBegun? && resumeFn.Unset? && cancels == 0
      case NotReady => body.NotBegun? && resumeFn.Unset? && cancels == 0
      case InitialCxlPend => body.NotBegun? && resumeFn.Unset? && cancels == 1 && !forgotten
      case CancelPending => body.NotBegun? && resumeFn.Unset? && cancels == 1 && !forgotten
      case Running => !body.Ended? && !resumeFn.Unset? && cancels == 0
      case Cancelling => !body.Ended? && !resumeFn.Unset? && cancels == 1
      case Ready => body.Ended? && !result.WasCancelled?
      case ReadyAfterCancel => body.Ended? && cancels == 1
      case Done => body.Ended? && !result.WasCancelled?
      case Cancelled => body.Ended? && result.WasCancelled?
      case ReadyImmediately => false
    }

    /** One outcome and one continuation, both at the end; a task ends as cancelled exactly if its
        last awaiter confirmed a cancellation. */
    ghost predicate OneOutcome()
      reads this
    {
      && (result.NoResult? <==> !body.Ended?)
      && (hasPromise <==> !body.Ended?)
      && continuations == (if body.Ended? then 1 else 0)
      && (result.WasCancelled? <==> awaiter.phase.Cancelled?)
    }

    ghost predicate Valid()
      reads this
    {
      InStep() && CancelTracked() && CancelKept() && ParentInStep() && OneOutcome()
    }

    /** The parent has suspended and not taken the result yet. */
    predicate Awaited()
      reads this
    {
      self.Pending() || self.phase.Ready? || self.phase.ReadyAfterCancel?
    }

    constructor ()
      ensures Valid() && self == Checker(Initial, false) && body.NotBegun?
    {
      object_, functions_, resumeFn, hasParent, body := READY, NONE, Unset, false, NotBegun;
      awaiter, queued := Checker(Initial, false), 0;
      hasPromise, result, self := true, NoResult, Checker(Initial, false);
      cancels, continuations, awaited, forgotten := 0, 0, 0, false;
    }

    // ----- the parent, through the TaskAwaiter

    /** A task is ready exactly once it has ended, which the parent may ask after it has cancelled it. */
    method AwaitReady() returns (ready: bool)
      requires Valid() && self.MayAskReady()
      modifies this`self
      ensures Valid() && (ready <==> body.Ended?) && (ready <==> old(self).phase.ReadyAfterCancel?)
      ensures self == old(self).ReadyReturned(ready)
    {
      ready := !result.NoResult?;
      self := self.ReadyReturned(ready);
    }

    /** Passes the request on to the task, which keeps it until its first co_await. */
    method AwaitEarlyCancel() returns (cancelled: bool)
      requires Valid() && self.MayEarlyCancel()
      modifies this
      ensures Valid() && !cancelled && self == old(self).EarlyCancelReturned(cancelled)
      ensures cancels == 1 && CancelDue()
    {
      if hasPromise {
        cancels := cancels + 1;
        functions_ := REQUESTED;  // cancel() of a task without an awaiter
      }
      cancelled := false;
      self := self.EarlyCancelReturned(cancelled);
    }

    method AwaitSetExecutor()
      requires Valid() && self.MaySetExecutor()
      modifies this`self
      ensures Valid() && self == old(self).SetExecutor()
    {
      self := self.SetExecutor();
    }

    /** await_suspend(): start() hands out the proxy handle, and the parent resumes it. */
    method AwaitSuspend()
      requires Valid() && self.MaySuspend()
      modifies this
      ensures Valid() && queued == 1
      ensures self == old(self).Suspended()
    {
      self := self.Suspended();
      resumeFn := DoResume;
      hasParent := true;
      ResumeHandle();
    }

    /** await_cancel(): always answers that the task will be heard from later. */
    method AwaitCancel() returns (confirmed: bool)
      requires Valid() && self.MayCancel()
      modifies this
      ensures Awaited()
      ensures Valid() && !confirmed && cancels == 1 && awaited == old(awaited) && !forgotten
      ensures body == old(body) || body.Ended?
    {
      RequestCancel();
      if HasAwaiter() {
        AwaiterAnswers();
      }
      confirmed := false;
    }

    method AwaitMustResume() returns (must: bool)
      requires Valid() && self.MayAskMustResume()
      modifies this`self
      ensures Valid() && self == old(self).MustResumeReturned(must)
      ensures must <==> !result.WasCancelled?
    {
      must := !result.WasCancelled?;
      self := self.MustResumeReturned(must);
    }

    /** There is a value or an exception to give to the parent. */
    method AwaitResume() returns (r: Result)
      requires Valid() && self.MayResume()
      modifies this`self
      ensures Valid() && self == old(self).Resumed()
      ensures r == result && (r.Value? || r.Exception?)
    {
      r := result;
      self := self.Resumed();
    }

    // ----- the promise

    /** BasePromise::cancel(), received once, up to the awaiter's answer. */
    method RequestCancel()
      requires Valid() && self.MayCancel()
      modifies this`self, this`cancels, this`functions_, this`resumeFn, this`awaiter
      ensures Valid() && cancels == 1 && self == old(self).CancelRequested()
      ensures HasAwaiter() ==> awaiter == old(awaiter).CancelRequested() && resumeFn.DoResumeAfterCancel? && functions_ == old(functions_)
      ensures !HasAwaiter() ==> CancelDue() && awaiter == old(awaiter) && resumeFn == old(resumeFn)
    {
      self := self.CancelRequested();
      cancels := cancels + 1;
      if !HasAwaiter() {
        functions_ := REQUESTED;
      } else {
        resumeFn := DoResumeAfterCancel;
        awaiter := awaiter.CancelRequested();
      }
    }

    /** The awaiter may resume the handle before its await_cancel() returns, and must then return false. */
    method AwaiterAnswers()
      requires Valid() && body.Suspended? && HasAwaiter() && awaiter.phase.Cancelling?
      modifies this
      ensures Awaited()
      ensures Valid() && cancels == old(cancels) && forgotten == old(forgotten) && awaited == old(awaited)
      ensures !awaiter.phase.Running? && (body == old(body) || body.Ended?)
    {
      var resumes: bool := *;
      if resumes {
        awaiter := awaiter.HandleResumed();
        ResumeHandle();
      } else {
        var confirms: bool := *;
        if confirms {
          awaiter := awaiter.CancelConfirmed();
          PropagateCancel();
        }
      }
    }

    /** Somebody resumes the proxy handle: the parent to start the task, or the current awaiter, whose
        side of the protocol has just been accounted for. */
    method ResumeHandle()
      requires CancelTracked() && ParentInStep() && OneOutcome() && hasParent && queued == 0
      requires body.NotBegun? ==> CancelKept()
      requires awaiter.phase.Ready? && cancels == 1 ==> forgotten
      requires awaiter.phase.ReadyAfterCancel? ==> !forgotten
      requires || (body.NotBegun? && resumeFn.DoResume? && object_ == READY && awaiter.phase.Initial? && awaited == 0)
               || (body.Suspended? && HasAwaiter() && functions_ > REQUESTED
                   && ((awaiter.phase.Ready? && resumeFn.DoResume?) || (awaiter.phase.ReadyAfterCancel? && resumeFn.DoResumeAfterCancel?)))
      modifies this
      ensures Valid() && cancels == old(cancels) && awaited == old(awaited) && forgotten == old(forgotten)
      ensures body.Ended? || queued == 1
      ensures body == old(body) || body.Ended?
      ensures self == old(self) || (body.Ended? && self == old(self).HandleResumed())
      ensures resumeFn.DoNothing? || body.Ended?
      ensures old(awaiter.phase.ReadyAfterCancel?) ==> awaiter.phase == if body.Ended? then Phase.Cancelled else Phase.Ready
      ensures old(awaiter.phase.Ready?) || old(body.NotBegun?) ==> !body.Ended?
    {
      if resumeFn.DoResumeAfterCancel? {
        if HasAwaiter() {
          var must: bool := *;
          awaiter := awaiter.MustResumeReturned(must);
          if must {
            functions_ := REQUESTED;
            Schedule();
            return;
          }
        }
        PropagateCancel();
      } else if resumeFn.DoResume? {
        Schedule();
      }
    }

    /** doResume() */
    method Schedule()
      modifies this`object_, this`resumeFn, this`queued
      ensures object_ == READY && resumeFn.DoNothing? && queued == old(queued) + 1
    {
      object_ := READY;
      resumeFn := DoNothing;
      queued := queued + 1;
    }

    /** propagateCancel(): the task ends as cancelled, and its parent is resumed. */
    method PropagateCancel()
      requires hasParent && queued == 0 && !body.Ended? && awaiter.phase.Cancelled? && cancels == 1
      requires self.phase.Cancelling? && result.NoResult? && hasPromise && continuations == 0
      modifies this
      ensures Valid() && body.Ended? && result.WasCancelled? && cancels == 1 && awaited == old(awaited) && forgotten == old(forgotten)
      ensures self == old(self).HandleResumed()
    {
      hasParent := false;
      result := WasCancelled;
      body := Ended;
      Continuation();
    }

    /** TaskAwaiter::continuation(): the parent's handle is resumed. */
    method Continuation()
      requires !result.NoResult? && self.Pending()
      modifies this`hasPromise, this`continuations, this`self
      ensures !hasPromise && continuations == old(continuations) + 1 && self == old(self).HandleResumed()
    {
      hasPromise := false;
      continuations := continuations + 1;
      self := self.HandleResumed();
    }

    // ----- the executor and the body

    /** The executor runs the step that was queued: the body starts, or takes the awaiter's result. */
    method RunStep()
      requires Valid() && queued == 1
      modifies this
      ensures Valid() && body.OnCpu? && queued == 0 && cancels == old(cancels)
      ensures CancelDue() == old(CancelDue()) && self == old(self)
    {
      queued := 0;
      object_ := RUNNING;
      if body.Suspended? {
        awaiter := awaiter.Resumed();
      }
      body := OnCpu;
    }

    /** The body returns or throws. */
    method Finish(throws: bool)
      requires Valid() && body.OnCpu?
      modifies this
      ensures Valid() && body.Ended? && result == if throws then Exception else Value
      ensures self == old(self).HandleResumed()
    {
      result := if throws then Exception else Value;
      hasParent := false;
      body := Ended;
      Continuation();
    }

    /** The body awaits something, at the given addresses. It goes on at once if that is ready, or if its
        await_suspend() throws.  A cancellation that is due is tried first, even on something that is ready. */
    method CoAwait(address: nat, table: nat) returns (ready: bool, threw: bool)
      requires Valid() && body.OnCpu? && address > RUNNING && table > REQUESTED
      modifies this
      ensures Awaited()
      ensures Valid() && awaited == old(awaited) + 1
      ensures ready || threw <==> body.OnCpu?
      ensures ready ==> !old(CancelDue()) && !threw && awaiter.phase.Done? && self == old(self)
      ensures old(CancelDue()) && !threw ==> awaiter.phase.Cancelled? || awaiter.phase.Cancelling? || awaiter.phase.Ready?
      ensures old(CancelDue()) && threw ==> CancelDue()
      ensures old(CancelDue()) ==> forgotten == old(forgotten)
    {
      NextAwaiter();
      ready := false;
      if functions_ != REQUESTED {
        ready := *;
        awaiter := awaiter.ReadyReturned(ready);
        if ready {
          awaiter := awaiter.Resumed();
          threw := false;
          return;
        }
      }
      threw := HookAwaitSuspend(address, table);
    }

    method NextAwaiter()
      requires Valid() && body.OnCpu?
      modifies this`awaited, this`awaiter
      ensures Valid'() && awaited == old(awaited) + 1 && awaiter == Checker(Initial, false)
    {
      awaited := awaited + 1;
      awaiter := Checker(Initial, false);
    }

    method HookAwaitSuspend(address: nat, table: nat) returns (threw: bool)
      requires Valid'() && body.OnCpu? && address > RUNNING && table > REQUESTED
      requires awaiter == Checker(if functions_ == REQUESTED then Initial else NotReady, false)
      modifies this
      ensures Awaited()
      ensures Valid() && awaited == old(awaited) && (threw <==> body.OnCpu?)
      ensures old(functions_ == REQUESTED) && !threw ==> awaiter.phase.Cancelled? || awaiter.phase.Cancelling? || awaiter.phase.Ready?
      ensures old(functions_ == REQUESTED) ==> forgotten == old(forgotten) && (threw ==> CancelDue())
    {
      threw := false;
      var cancelRequested := functions_ == REQUESTED;
      if cancelRequested {
        object_, functions_ := address, table;
        body := Suspended;
        var cancelled: bool := *;
        awaiter := awaiter.EarlyCancelReturned(cancelled);
        if cancelled {
          PropagateCancel();
          return;
        }
        resumeFn := DoResumeAfterCancel;
        var ready: bool := *;
        awaiter := awaiter.ReadyReturned(ready);
        if ready {
          ResumeHandle();
          return;
        }
        awaiter := awaiter.SetExecutor();
        awaiter := awaiter.Suspended();
      } else {
        Suspend(address, table);
      }
      threw := CallAwaitSuspend(cancelRequested);
    }

    /** Without a cancellation to try, the awaiter is recorded and told to suspend. */
    method Suspend(address: nat, table: nat)
      requires Valid'() && body.OnCpu? && address > RUNNING && table > REQUESTED && functions_ != REQUESTED
      requires awaiter == Checker(NotReady, false)
      modifies this`object_, this`functions_, this`body, this`resumeFn, this`awaiter
      ensures Valid() && body.Suspended? && HasAwaiter() && awaiter == Checker(Running, true)
    {
      object_, functions_ := address, table;
      body := Suspended;
      resumeFn := DoResume;
      awaiter := awaiter.SetExecutor();
      awaiter := awaiter.Suspended();
    }

    /** What may happen inside, or as the immediate effect of, the awaiter's await_suspend(). */
    method CallAwaitSuspend(cancelRequested: bool) returns (threw: bool)
      requires Valid() && body.Suspended? && HasAwaiter()
      requires cancelRequested <==> awaiter.phase.Cancelling?
      modifies this
      ensures Awaited()
      ensures Valid() && awaited == old(awaited) && (threw <==> body.OnCpu?)
      ensures cancelRequested && !threw ==> awaiter.phase.Cancelled? || awaiter.phase.Cancelling? || awaiter.phase.Ready?
      ensures cancelRequested ==> forgotten == old(forgotten) && (threw ==> CancelDue())
    {
      threw := false;
      // the parent may cancel the task from in here
      var cancel: bool := *;
      if cancel && self.MayCancel() {
        var _ := AwaitCancel();
      }
      if body.Suspended? && HasAwaiter() {
        var throws: bool := *;
        // the handle may be resumed, or returned to be resumed
        var resumes: bool := *;
        if throws {
          threw := true;
          SuspendThrows(cancelRequested);
        } else if resumes {
          AwaiterResumes();
        }
      }
    }

    /** await_suspend() throws, and the body goes on.  A cancellation that came meanwhile is forgotten. */
    method SuspendThrows(cancelRequested: bool)
      requires Valid() && body.Suspended? && HasAwaiter() && (cancelRequested ==> awaiter.phase.Cancelling?)
      modifies this`forgotten, this`awaiter, this`object_, this`functions_, this`body
      ensures Valid() && body.OnCpu? && self == old(self)
      ensures forgotten <==> old(forgotten) || (old(awaiter.phase.Cancelling?) && !cancelRequested)
      ensures cancelRequested <==> CancelDue()
    {
      forgotten := forgotten || (awaiter.phase.Cancelling? && !cancelRequested);
      awaiter := awaiter.SuspendThrew();
      object_ := RUNNING;
      if cancelRequested {
        functions_ := REQUESTED;
      }
      body := OnCpu;
    }

    /** The current awaiter resumes the handle it was given. */
    method AwaiterResumes()
      requires Valid() && body.Suspended? && HasAwaiter()
      modifies this
      ensures Awaited()
      ensures Valid() && (queued == 1 || body.Ended?) && awaited == old(awaited) && forgotten == old(forgotten)
      ensures old(awaiter.phase.Cancelling?) ==> awaiter.phase == if body.Ended? then Phase.Cancelled else Phase.Ready
      ensures !awaiter.phase.Running?
    {
      awaiter := awaiter.HandleResumed();
      ResumeHandle();
    }

    /** Valid, while the next awaiter is being set up. */
    ghost predicate Valid'()
      reads this
    {
      && object_ == RUNNING && hasParent && queued == 0
      && cancels <= 1 && (forgotten ==> cancels == 1)
      && (functions_ == REQUESTED <==> cancels == 1 && !forgotten)
      && ParentInStep() && OneOutcome()
    }
  
    /** A call by the parent, if the awaiter protocol allows it. */
    method ParentActs(choice: int)
      requires Valid()
      modifies this
      ensures Valid()
    {
      if choice == 0 && self.MayAskReady() {
        var _ := AwaitReady();
      } else if choice == 1 && self.MayEarlyCancel() {
        var _ := AwaitEarlyCancel();
      } else if choice == 2 && self.MaySetExecutor() {
        AwaitSetExecutor();
      } else if choice == 3 && self.MaySuspend() {
        AwaitSuspend();
      } else if choice == 4 && self.MayCancel() {
        var _ := AwaitCancel();
      } else if choice == 5 && self.MayAskMustResume() {
        var _ := AwaitMustResume();
      } else if choice == 6 && self.MayResume() {
        var _ := AwaitResume();
      }
    }

    /** The executor runs a step, the body goes on, or the current awaiter resumes its handle. */
    method TaskActs(choice: int)
      requires Valid()
      modifies this
      ensures Valid()
    {
      if queued == 1 {
        RunStep();
      } else if body.OnCpu? {
        var throws: bool := *;
        if choice < 0 {
          Finish(throws);
        } else {
          var _, _ := CoAwait(2 + choice, 2);
        }
      } else if body.Suspended? && HasAwaiter() {
        AwaiterResumes();
      }
    }
  }

  /** Any run of a new task: the parent drives it by the awaiter protocol and may cancel it once, early or
      late, awaiters resume its handle, the executor runs its steps, and its body does as it likes. */
  method AnyRun(steps: nat) returns (t: Task)
    ensures t.Valid() && t.cancels <= 1 && t.queued <= 1
    ensures t.continuations == (if t.body.Ended? then 1 else 0)
    ensures t.body.Ended? <==> t.self.phase.Ready? || t.self.phase.ReadyAfterCancel? || t.self.phase.Done? || t.self.phase.Cancelled?
    ensures t.result.WasCancelled? ==> t.cancels == 1 && t.awaiter.phase.Cancelled?
    ensures t.self.phase.Done? ==> t.result.Value? || t.result.Exception?
    ensures t.self.phase.Cancelled? ==> t.result.WasCancelled?
  {
    t := new Task();
    var left := steps;
    while left > 0
      invariant t.Valid() && fresh(t)
    {
      var parent: bool, choice: int := *, *;
      if parent {
        t.ParentActs(choice);
      } else {
        t.TaskActs(choice);
      }
      left := left - 1;
    }
  }

  /** A task that is cancelled from inside an await_suspend() that then throws goes on as if it had never
      been cancelled, although its parent has asked for it. */
  method CancellationForgotten() returns (t: Task)
    ensures t.Valid() && t.forgotten && t.cancels == 1 && t.self.phase.Cancelling?
    ensures t.body.OnCpu? && !t.CancelDue()
  {
    t := new Task();
    var ready := t.AwaitReady();
    t.AwaitSetExecutor();
    t.AwaitSuspend();
    t.RunStep();
    t.NextAwaiter();
    t.awaiter := t.awaiter.ReadyReturned(false);
    t.Suspend(2, 2);
    t.RequestCancel();  // inside await_suspend()
    t.SuspendThrows(false);
  }
}
