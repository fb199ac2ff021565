/**
 The awaiter state machine: which calls a driver may make on an awaiter, and which answers a
 well-behaved awaiter may give.  Every assertion of the run-time checker is a precondition
 here, so a driver that verifies against these functions makes no call the checker rejects.
 */
module AwaiterProtocol {

  datatype Phase =
    | Initial           // nothing done with the awaiter yet
    | NotReady          // await_ready() returned false
    | InitialCxlPend    // Initial, and await_early_cancel() returned false
    | CancelPending     // NotReady, and await_early_cancel() returned false
    | ReadyImmediately  // await_ready() returned true before await_suspend()
    | Running           // await_suspend() has started
    | Cancelling        // Running, and a cancellation is requested
    | ReadyAfterCancel  // completed after a cancellation request; await_must_resume() is due
    | Ready             // completed; await_resume() is due
    | Cancelled         // complete, without a result
    | Done              // complete, result consumed

  datatype Checker = Checker(phase: Phase, hasExecutor: bool) {

    predicate MayAskReady() {
      || phase.Initial? || phase.NotReady? || phase.InitialCxlPend? || phase.CancelPending?
      || phase.ReadyImmediately? || phase.ReadyAfterCancel?
    }

    /** Once ready, an awaiter stays ready. */
    predicate MayAnswerReady(ready: bool) {
      phase.ReadyImmediately? || phase.ReadyAfterCancel? ==> ready
    }

    function ReadyReturned(ready: bool): Checker
      requires MayAskReady() && MayAnswerReady(ready)
    {
      this.(phase :=
        if phase.InitialCxlPend? || phase.CancelPending? then
          if ready then ReadyAfterCancel else CancelPending
        else if phase.Initial? || phase.NotReady? then
          if ready then ReadyImmediately else NotReady
        else phase)
    }

    predicate MayEarlyCancel() {
      phase.Initial? || phase.NotReady? || phase.ReadyImmediately?
    }

    function EarlyCancelReturned(cancelled: bool): Checker
      requires MayEarlyCancel()
    {
      this.(phase :=
        if cancelled then Cancelled
        else if phase.Initial? then InitialCxlPend
        else if phase.NotReady? then CancelPending
        else ReadyAfterCancel)
    }

    predicate MaySetExecutor() {
      phase.NotReady? || phase.CancelPending? || phase.ReadyImmediately? || phase.Initial? || phase.InitialCxlPend?
    }

    function SetExecutor(): Checker
      requires MaySetExecutor()
    {
      this.(hasExecutor := true)
    }

    predicate MaySuspend() {
      hasExecutor && (phase.NotReady? || phase.CancelPending?)
    }

    function Suspended(): Checker
      requires MaySuspend()
    {
      this.(phase := if phase.NotReady? then Running else Cancelling)
    }

    /** Between await_suspend() and the resumption of the handle. */
    predicate Pending() {
      phase.Running? || phase.Cancelling?
    }

    function SuspendThrew(): Checker
      requires Pending()
    {
      this.(phase := Done)
    }

    predicate MayCancel() { phase.Running? }

    function CancelRequested(): Checker
      requires MayCancel()
    {
      this.(phase := Cancelling)
    }

    /** An awaiter that has resumed its handle must not report a cancellation as well. */
    predicate MayConfirmCancel() { phase.Cancelling? }

    function CancelConfirmed(): Checker
      requires MayConfirmCancel()
    {
      this.(phase := Cancelled)
    }

    /** The awaiter resumes the handle it was given; it may do so only while pending. */
    function HandleResumed(): Checker
      requires Pending()
    {
      this.(phase := if phase.Running? then Ready else ReadyAfterCancel)
    }

    predicate MayAskMustResume() { phase.ReadyAfterCancel? }

    function MustResumeReturned(must: bool): Checker
      requires MayAskMustResume()
    {
      this.(phase := if must then Ready else Cancelled)
    }

    predicate MayResume() { phase.ReadyImmediately? || phase.Ready? }

    function Resumed(): Checker
      requires MayResume()
    {
      this.(phase := Done)
    }

    predicate MayDestroy() { phase.Cancelled? || phase.Done? || phase.Initial? }
  }
}

/** Whole histories of an awaiter. */
module AwaiterRuns {
  import opened AwaiterProtocol

  /** A call on the awaiter with its answer, or something the awaiter does. */
  datatype Call =
    | ReadyAnswer(ready: bool)
    | EarlyCancel(cancelled: bool)
    | PassExecutor
    | Suspend
    | Throw             // await_suspend() throws
    | CancelRequest
    | CancelConfirm     // await_cancel() returns true
    | ResumeHandle
    | MustResume(must: bool)
    | TakeResult        // await_resume()

  predicate Allowed(c: Checker, call: Call) {
    match call
    case ReadyAnswer(ready) => c.MayAskReady() && c.MayAnswerReady(ready)
    case EarlyCancel(_) => c.MayEarlyCancel()
    case PassExecutor => c.MaySetExecutor()
    case Suspend => c.MaySuspend()
    case Throw => c.Pending()
    case CancelRequest => c.MayCancel()
    case CancelConfirm => c.MayConfirmCancel()
    case ResumeHandle => c.Pending()
    case MustResume(_) => c.MayAskMustResume()
    case TakeResult => c.MayResume()
  }

  function Next(c: Checker, call: Call): Checker
    requires Allowed(c, call)
  {
    match call
    case ReadyAnswer(ready) => c.ReadyReturned(ready)
    case EarlyCancel(cancelled) => c.EarlyCancelReturned(cancelled)
    case PassExecutor => c.SetExecutor()
    case Suspend => c.Suspended()
    case Throw => c.SuspendThrew()
    case CancelRequest => c.CancelRequested()
    case CancelConfirm => c.CancelConfirmed()
    case ResumeHandle => c.HandleResumed()
    case MustResume(must) => c.MustResumeReturned(must)
    case TakeResult => c.Resumed()
  }

  /** What the checker accepts from a new awaiter on, and where that leads. */
  ghost predicate Accepts(calls: seq<Call>, c: Checker) {
    if calls == [] then c == Checker(Initial, false)
    else
      var call := calls[|calls| - 1];
      exists b :: Accepts(calls[..|calls| - 1], b) && Allowed(b, call) && c == Next(b, call)
  }

  /** How often things have happened. */
  datatype Totals = Totals(suspended: nat, cancels: nat, resumed: nat, taken: nat, thrown: nat, confirmed: nat)

  function Add(k: Totals, call: Call): Totals {
    match call
    case Suspend => k.(suspended := k.suspended + 1)
    case CancelRequest => k.(cancels := k.cancels + 1)
    case EarlyCancel(cancelled) => k.(cancels := k.cancels + 1, confirmed := k.confirmed + if cancelled then 1 else 0)
    case CancelConfirm => k.(confirmed := k.confirmed + 1)
    case MustResume(must) => k.(confirmed := k.confirmed + if must then 0 else 1)
    case ResumeHandle => k.(resumed := k.resumed + 1)
    case TakeResult => k.(taken := k.taken + 1)
    case Throw => k.(thrown := k.thrown + 1)
    case _ => k
  }

  function Count(calls: seq<Call>): Totals {
    if calls == [] then Totals(0, 0, 0, 0, 0, 0) else Add(Count(calls[..|calls| - 1]), calls[|calls| - 1])
  }

  /** What has been counted, phase by phase. */
  predicate Tallied(c: Checker, k: Totals) {
    && k.cancels <= 1 && k.resumed + k.thrown <= k.suspended <= 1
    && k.taken + k.thrown == (if c.phase.Done? then 1 else 0) && k.confirmed == (if c.phase.Cancelled? then 1 else 0)
    && (match c.phase
        case Initial => k.cancels == k.suspended == 0
        case NotReady => k.cancels == k.suspended == 0
        case ReadyImmediately => k.cancels == k.suspended == 0
        case InitialCxlPend => k.cancels == 1 && k.suspended == 0
        case CancelPending => k.cancels == 1 && k.suspended == 0
        case Running => k.cancels == 0 && k.suspended == 1 && k.resumed == 0
        case Cancelling => k.cancels == 1 && k.suspended == 1 && k.resumed == 0
        case ReadyAfterCancel => k.cancels == 1
        case Cancelled => k.cancels == 1
        case _ => true)
  }

  /** Whatever accepted calls are made on an awaiter: it is suspended, asked to cancel and resumes its
      handle at most once each; it has exactly one outcome, result or exception or confirmed
      cancellation, exactly if it is at a terminal phase; and only a cancellation that was asked for is
      confirmed. */
  lemma {:induction false} OneOutcomePerAwaiter(calls: seq<Call>, c: Checker)
    requires Accepts(calls, c)
    ensures Tallied(c, Count(calls))
    ensures var k := Count(calls);
            && k.resumed + k.thrown <= k.suspended <= 1 && k.confirmed <= k.cancels <= 1
            && k.taken + k.thrown + k.confirmed == (if c.phase.Done? || c.phase.Cancelled? then 1 else 0)
            && (c.phase.Cancelled? <==> k.confirmed == 1)
  {
    if calls != [] {
      var call, before := calls[|calls| - 1], calls[..|calls| - 1];
      var b :| Accepts(before, b) && Allowed(b, call) && c == Next(b, call);
      OneOutcomePerAwaiter(before, b);
      TalliedStep(b, Count(before), call);
    }
  }

  lemma TalliedStep(c: Checker, k: Totals, call: Call)
    requires Tallied(c, k) && Allowed(c, call)
    ensures Tallied(Next(c, call), Add(k, call))
  {
  }
}
