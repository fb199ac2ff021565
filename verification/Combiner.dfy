/**
 The combiners anyOf, mostOf and allOf: n children, each behind a helper that knows how far its
 child has come, and a counter of children heard from.  When enough of them have finished the
 rest are cancelled, and cancelling re-enters the counter.

 Children are arbitrary well-behaved awaiters.  Their answers, and everything they do inside a
 call, are chosen by the environment: while a child is being suspended or cancelled, it may
 resume its own handle or any sibling's, and may have the combiner itself cancelled.
 */
module Combiner {
  import opened Collections
  import opened AwaiterProtocol
  import opened Options

  /** MuxHelper::State */
  datatype Helper =
    | NotStarted
    | CancellationPending
    | Running
    | Cancelling
    | Cancelled
    | Ready
    | Succeeded
    | Failed
  {
    predicate Final() { Cancelled? || Succeeded? || Failed? }

    predicate Live() { Running? || Cancelling? }

    /** How much can still happen to a child. */
    function Rank(): nat {
      match this
      case NotStarted => 3
      case CancellationPending => 2
      case Running => 2
      case Cancelling => 1
      case Ready => 1
      case _ => 0
    }
  }

  /** The helper's state is an abstraction of the state of the call protocol with its child. */
  predicate Matches(h: Helper, c: Phase) {
    match h
    case NotStarted => c.Initial? || c.NotReady? || c.ReadyImmediately?
    case CancellationPending => c.InitialCxlPend? || c.CancelPending? || c.ReadyAfterCancel?
    case Running => c.Running?
    case Cancelling => c.Cancelling?
    case Cancelled => c.Cancelled?
    case Ready => c.Ready?
    case Succeeded => c.Done?
    case Failed => c.Done?
  }

  function TotalRank(hs: seq<Helper>): nat {
    if hs == [] then 0 else hs[0].Rank() + TotalRank(hs[1..])
  }

  lemma {:induction false} RankUpdate(hs: seq<Helper>, i: nat, h: Helper)
    requires i < |hs|
    ensures TotalRank(hs[i := h]) == TotalRank(hs) - hs[i].Rank() + h.Rank()
  {
    if i == 0 {
      assert hs[i := h][1..] == hs[1..];
    } else {
      assert hs[i := h][1..] == hs[1..][i - 1 := h];
      RankUpdate(hs[1..], i - 1, h);
    }
  }

  /** How a run of a combiner can end. */
  datatype Outcome =
    | Suspended        // its children are on their own
    | ResumedAtOnce    // await_resume() without await_suspend()
    | CancelledAtOnce  // by an early cancellation
    | Rejected         // await_set_executor() is called on a child that does not expect it any more

  /** The combiner's fields, and beside them the bookkeeping that its invariant speaks of. */
  datatype State = State(
    n: nat,
    minReady: nat,        // 1 for anyOf, n for mostOf and allOf
    skips: seq<bool>,     // what each child answers if it is ever asked to cancel early
    helper: seq<Helper>,
    child: seq<Checker>,  // where the call protocol with each child stands
    self: Checker,        // where the parent's call protocol with the combiner stands
    count: int,
    error: Option<nat>,   // the child whose error is to be thrown
    failures: seq<nat>,   // children that have been counted with an error, in that order
    muted: bool,          // parent_ is a no-op for the time being, inside await_cancel()
    early: bool,          // the combiner was cancelled before it was suspended
    suspended: nat,       // children whose suspend() has been called
    reported: set<nat>,   // children that have been counted
    doubled: set<nat>,    // children that have been counted twice
    frames: nat,          // open calls of internalCancel() from invoke()
    sweptAt: nat,         // children that had been suspended when internalCancel() was first called; n if it has not been
    immediate: bool,      // await_resume() is under way without await_suspend(); parent_ is a no-op
    prompt: bool)         // every child, once started, confirms a cancellation on the spot and does nothing else then
  {
    predicate HasError() { error.Some? }
  }

  // ----- the invariant

  /** Some child produced a value or an error. */
  ghost predicate Answered(hs: seq<Helper>) {
    exists i: nat :: i < |hs| && (hs[i].Succeeded? || hs[i].Failed?)
  }

  /** What justifies cancelling the rest when nobody asked the combiner to cancel: a value or an
      error, and an error if all children are needed. */
  ghost predicate Justified(s: State) {
    Answered(s.helper) && (s.minReady == s.n ==> s.HasError())
  }

  /** Neither cancelled nor about to be. */
  predicate Uncancelled(c: Checker) {
    c.phase.Running? || c.phase.Ready?
  }

  ghost predicate SomeFailed(hs: seq<Helper>) {
    exists i: nat :: i < |hs| && hs[i].Failed?
  }

  /** Some child was asked to cancel. */
  ghost predicate Swept(hs: seq<Helper>) {
    exists i: nat :: i < |hs| && (hs[i].Cancelling? || hs[i].Cancelled? || hs[i].CancellationPending?)
  }

  /** A child that suspend() has not reached yet. */
  predicate Waiting(h: Helper, c: Checker, skip: bool, early: bool) {
    && (h.NotStarted? || h.CancellationPending? || h.Cancelled?)
    && (early ==> !h.NotStarted?)
    && (!early ==> (h.Cancelled? ==> skip) && (h.CancellationPending? ==> !skip))
    && (!h.Cancelled? ==> c.hasExecutor)
  }

  /** A child that confirms cancellations on the spot is left to cancel itself only if it has refused an early
      cancellation. */
  predicate Prompt(h: Helper, skip: bool) {
    h.Cancelling? ==> !skip
  }

  /** The helper of every child but `ahead` is in step with its child. */
  ghost predicate Shape(s: State, ahead: int) {
    && |s.helper| == |s.child| == |s.skips| == s.n
    && 1 <= s.minReady <= s.n
    && s.suspended <= s.n
    && (forall i: nat :: i < s.n && i != ahead ==> Matches(s.helper[i], s.child[i].phase))
    && (forall i: nat :: i < s.suspended ==> s.helper[i].Live() || s.helper[i].Final())
    && (forall i: nat :: i < s.suspended && s.prompt && !s.early ==> Prompt(s.helper[i], s.skips[i]))
    && (forall i: nat :: s.suspended <= i < s.n ==> Waiting(s.helper[i], s.child[i], s.skips[i], s.early))
  }

  /** Child i is final in a way that has been, or is to be, counted. */
  predicate Counts(s: State, i: nat) {
    i < |s.helper| && s.helper[i].Final() && (i >= s.suspended ==> !s.early)
  }

  /** The error of the child that was counted with one first is kept; `failures` are those that failed, but
      perhaps for child `but`. */
  ghost predicate FirstKept(error: Option<nat>, failures: seq<nat>, hs: seq<Helper>, but: int) {
    match error
    case _ =>
      && error == (if failures == [] then None else Some(failures[0]))
      && (forall i :: i in failures ==> i < |hs| && hs[i].Failed?)
      && (forall i: nat :: i < |hs| && i != but && hs[i].Failed? ==> i in failures)
  }

  lemma FirstKeptFacts(s: State, but: int)
    requires FirstKept(s.error, s.failures, s.helper, but)
    ensures s.HasError() ==> SomeFailed(s.helper)
    ensures forall i: nat :: i < |s.helper| && i != but && s.helper[i].Failed? ==> s.HasError()
  {
    if s.HasError() { assert s.failures[0] in s.failures; }
  }

  /** Exactly the finished children have been counted, apart from child `but`; a child that was
      cancelled before the combiner was suspended is counted when suspend() reaches it. */
  ghost predicate Settled(s: State, but: int) {
    && (forall i :: i in s.reported ==> Counts(s, i))
    && (forall i: nat :: Counts(s, i) && i != but ==> i in s.reported)
    && FirstKept(s.error, s.failures, s.helper, but)
    && (forall i :: i in s.doubled ==> i in s.reported && i < s.suspended && s.helper[i].Cancelled?)
    && (s.early ==> s.doubled == {})
    && (s.doubled != {} ==> AllAsked(s.helper))
  }

  /** The count is the number of reports minus the number of open cancellation frames. */
  ghost predicate Counted(s: State) {
    && s.count == |s.reported| + |s.doubled| - s.frames
    && (s.frames > 0 ==> s.reported != {})
    && (s.muted ==> s.self.phase.Cancelling?)
    && (Uncancelled(s.self) ==> !s.early)
    && (Uncancelled(s.self) && Swept(s.helper) ==> Justified(s))
  }

  /** Enough children have reported, or one has failed, or somebody has been asked to cancel. */
  ghost predicate Triggered(s: State) {
    s.count >= s.minReady || s.HasError() || (!s.early && Swept(s.helper))
  }

  /** Every child has finished or has been asked to cancel. */
  ghost predicate AllAsked(hs: seq<Helper>) {
    forall i: nat :: i < |hs| ==> !hs[i].NotStarted? && !hs[i].Running?
  }

  /** The parent has been resumed exactly if the count has reached n; and between sweeps either
      there is no reason for one, or nobody is left to be asked. */
  ghost predicate Fired(s: State) {
    && (!s.muted ==> (s.self.Pending() <==> s.count < s.n))
    && (!s.muted && s.frames == 0 && Triggered(s) ==> AllAsked(s.helper))
  }

  /** A child of a combiner that is resumed without having been suspended: it is ready, or an early
      cancellation of it will succeed, or its outcome is known. */
  predicate AtHand(h: Helper, c: Checker, skip: bool) {
    && Matches(h, c.phase) && !h.Live()
    && (h.NotStarted? ==> c.phase.ReadyImmediately? || skip)
    && (h.CancellationPending? ==> c.phase.ReadyAfterCancel?)
  }

  /** The invariant while await_resume() collects results without await_suspend(). The count does not matter
      there, because nobody is to be resumed. */
  ghost predicate Immediate(s: State, but: int) {
    && s.immediate && s.muted && s.suspended == 0 && s.self.phase.Done?
    && |s.helper| == |s.child| == |s.skips| == s.n && 1 <= s.minReady <= s.n
    && (forall i: nat :: i < s.n ==> AtHand(s.helper[i], s.child[i], s.skips[i]) && (s.helper[i].NotStarted? ==> !s.early))
    && FirstKept(s.error, s.failures, s.helper, but)
    && (forall i :: i in s.reported ==> i < s.n && s.helper[i].Final())
  }

  ghost predicate Inv(s: State) {
    match s.self
    case Checker(_, _) =>
      if s.immediate then Immediate(s, -1) else Shape(s, -1) && Settled(s, -1) && Counted(s) && Fired(s)
  }

  /** What the environment can still do. */
  function Rank(s: State): nat {
    TotalRank(s.helper) + if s.self.phase.Running? then 1 else 0
  }

  /** How a child can have moved on. */
  predicate Later(h0: Helper, h1: Helper) {
    || h0 == h1
    || (h0.NotStarted? && (h1.CancellationPending? || h1.Ready? || h1.Final()))
    || (h0.CancellationPending? && (h1.Ready? || h1.Final()))
    || (h0.Ready? && h1.Final())
    || (h0.Running? && (h1.Cancelling? || h1.Final()))
    || (h0.Cancelling? && h1.Final())
  }

  ghost predicate AllLater(hs: seq<Helper>, hs': seq<Helper>) {
    |hs'| == |hs| && forall i: nat :: i < |hs| ==> Later(hs[i], hs'[i])
  }

  /** What any re-entrant call leaves behind: nobody goes backwards, no report is undone, and every
      frame that was opened is closed again. */
  ghost predicate Evolved(s: State, s': State) {
    match s'.self
    case Checker(phase, _) =>
      && s'.n == s.n && s'.minReady == s.minReady && s'.skips == s.skips
      && s'.frames == s.frames && s'.suspended == s.suspended && s'.muted == s.muted && s'.early == s.early && s'.immediate == s.immediate
      && s'.doubled == s.doubled && s.reported <= s'.reported
      && AllLater(s.helper, s'.helper)
      && Rank(s') <= Rank(s)
      && (s'.sweptAt == s.sweptAt || s'.sweptAt == Earlier(s.sweptAt, s.suspended))
      && (s.HasError() ==> s'.HasError()) && s.failures <= s'.failures
      && (s.self.Pending() || s'.self == s.self)
      && (s.self.phase.Cancelling? ==> !phase.Running? && !phase.Ready?)
  }

  function Earlier(a: nat, b: nat): nat {
    if a <= b then a else b
  }

  /** A sweep asks every child that has not started: either there was none, or nobody is left and it is on
      record. */
  ghost predicate SweepSeen(s: State, s': State) {
    || (s'.sweptAt == s.sweptAt && |s'.helper| == |s.helper|
        && forall i: nat :: i < |s.helper| && s.helper[i].NotStarted? ==> s'.helper[i].NotStarted?)
    || (s'.sweptAt == Earlier(s.sweptAt, s.suspended) && forall i: nat :: i < |s'.helper| ==> !s'.helper[i].NotStarted?)
  }

  lemma SweepTrans(s0: State, s1: State, s2: State)
    requires AllLater(s1.helper, s2.helper) && SweepSeen(s0, s1) && SweepSeen(s1, s2) && s1.suspended == s0.suspended
    ensures SweepSeen(s0, s2)
  {
    if forall i: nat :: i < |s1.helper| ==> !s1.helper[i].NotStarted? {
      forall i: nat | i < |s2.helper| ensures !s2.helper[i].NotStarted? {
        assert Later(s1.helper[i], s2.helper[i]);
      }
    }
  }

  /** Nobody has answered, but some may have been asked to cancel. */
  ghost predicate OnlySwept(hs: seq<Helper>, hs': seq<Helper>) {
    |hs'| == |hs| && forall i: nat :: i < |hs| ==>
      || hs'[i] == hs[i] || (hs[i].NotStarted? && (hs'[i].Cancelled? || hs'[i].CancellationPending?))
      || (hs[i].Running? && hs'[i].Cancelled?)
  }

  /** While results are collected at once, or if children confirm cancellations on the spot, a re-entrant call
      only sweeps: nobody has the combiner cancelled meanwhile, and no child does anything but answer. */
  ghost predicate Calm(s: State, s': State) {
    match s'.self
    case Checker(_, _) =>
      && OnlySwept(s.helper, s'.helper) && |s.child| == |s'.child| == |s.helper|
      && (s'.self == s.self || !s'.self.Pending())
      && (forall i: nat :: i < |s.helper| && s'.helper[i] == s.helper[i] ==> s'.child[i] == s.child[i])
      && (forall i: nat :: i < |s.helper| && s.helper[i].NotStarted? && s'.helper[i].CancellationPending? && s.child[i].MayEarlyCancel() ==>
            s'.child[i] == s.child[i].EarlyCancelReturned(false))
  }

  predicate IsCalm(s: State) {
    s.immediate || s.prompt
  }

  lemma CalmTrans(s0: State, s1: State, s2: State)
    requires Calm(s0, s1) && Calm(s1, s2)
    ensures Calm(s0, s2)
  {}

  /** One child has been asked, in a sweep that began in s0. */
  lemma SweepTurn(s0: State, s1: State, s2: State)
    requires Evolved(s0, s1) && Evolved(s1, s2) && s2.prompt == s0.prompt
    requires (IsCalm(s0) ==> Calm(s0, s1)) && (IsCalm(s2) ==> Calm(s1, s2))
    ensures Evolved(s0, s2) && Rank(s2) <= Rank(s0) && (IsCalm(s0) ==> Calm(s0, s2))
    ensures |s2.helper| == |s1.helper| && s2.frames == s1.frames && s2.muted == s1.muted && s2.immediate == s1.immediate
    ensures forall j: nat :: j < |s1.helper| && !s1.helper[j].NotStarted? && !s1.helper[j].Running? ==>
              && !s2.helper[j].NotStarted? && !s2.helper[j].Running? && (s1.helper[j].Cancelled? ==> s2.helper[j].Cancelled?)
              && (IsCalm(s0) ==> s2.helper[j] == s1.helper[j])
  {
    EvolvedTrans(s0, s1, s2);
    EvolvedFacts(s0, s1);
    EvolvedFacts(s1, s2);
    if IsCalm(s0) {
      CalmFacts(s1, s2);
      CalmTrans(s0, s1, s2);
    }
    hide Evolved, Calm, TotalRank;
    forall j: nat | j < |s1.helper| && !s1.helper[j].NotStarted? && !s1.helper[j].Running?
      ensures !s2.helper[j].NotStarted? && !s2.helper[j].Running? && (s1.helper[j].Cancelled? ==> s2.helper[j].Cancelled?)
    {
      assert Later(s1.helper[j], s2.helper[j]);
    }
  }

  lemma CalmFacts(s: State, s': State)
    requires Calm(s, s')
    ensures OnlySwept(s.helper, s'.helper)
    ensures forall i: nat :: i < |s.helper| && !s.helper[i].NotStarted? && !s.helper[i].Running? ==> s'.helper[i] == s.helper[i]
  {}

  lemma CalmSelf(s: State)
    requires |s.helper| == |s.child|
    ensures Calm(s, s)
  {}

  lemma EvolvedTrans(s0: State, s1: State, s2: State)
    requires Evolved(s0, s1) && Evolved(s1, s2)
    ensures Evolved(s0, s2)
  {
    forall i: nat | i < |s0.helper| ensures Later(s0.helper[i], s2.helper[i]) {
      assert Later(s0.helper[i], s1.helper[i]) && Later(s1.helper[i], s2.helper[i]);
    }
  }

  /** Before await_suspend(): nobody has been started or counted. */
  ghost predicate Fresh(s: State) {
    && |s.helper| == |s.child| == |s.skips| == s.n
    && 1 <= s.minReady <= s.n
    && s.count == s.suspended == s.frames == 0 && s.reported == s.doubled == {} && s.sweptAt == s.n
    && s.error.None? && s.failures == [] && !s.muted && !s.immediate
    && (forall i: nat :: i < s.n ==>
          && Matches(s.helper[i], s.child[i].phase)
          && if s.early then s.helper[i].CancellationPending? || s.helper[i].Cancelled? else s.helper[i].NotStarted?)
    && if s.early then s.self.phase.InitialCxlPend? || s.self.phase.CancelPending? || s.self.phase.ReadyAfterCancel? || s.self.phase.Cancelled?
       else s.self.MayEarlyCancel()
  }

  predicate IsReady(h: Helper, c: Checker) {
    h.NotStarted? && c.phase.ReadyImmediately?
  }

  /** How many of the first k children are ready. */
  function ReadyCount(hs: seq<Helper>, cs: seq<Checker>, k: nat): nat
    requires k <= |hs| && k <= |cs|
  {
    if k == 0 then 0 else ReadyCount(hs, cs, k - 1) + if IsReady(hs[k - 1], cs[k - 1]) then 1 else 0
  }

  /** Enough children are ready, and the others can be cancelled instead of being started. */
  predicate Enough(hs: seq<Helper>, cs: seq<Checker>, skippable: seq<bool>, minReady: nat)
    requires |hs| == |cs| <= |skippable|
  {
    && ReadyCount(hs, cs, |hs|) >= minReady
    && forall i: nat :: i < |hs| ==> IsReady(hs[i], cs[i]) || skippable[i]
  }

  /** A child's checker after its helper has been asked whether it is ready. */
  function Asked(h: Helper, c: Checker, answer: bool): Checker
    requires h.NotStarted? ==> Matches(h, c.phase)
  {
    if h.NotStarted? then c.ReadyReturned(answer || c.phase.ReadyImmediately?) else c
  }

  lemma {:induction false} NobodyReady(hs: seq<Helper>, cs: seq<Checker>, k: nat)
    requires k <= |hs| && k <= |cs| && forall i: nat :: i < k ==> !hs[i].NotStarted?
    ensures ReadyCount(hs, cs, k) == 0
  {
    if k > 0 { NobodyReady(hs, cs, k - 1); }
  }

  lemma {:induction false} ReadyCountGrows(hs: seq<Helper>, cs: seq<Checker>, cs': seq<Checker>, k: nat)
    requires k <= |hs| && k <= |cs| && k <= |cs'| && forall i: nat :: i < k && IsReady(hs[i], cs[i]) ==> IsReady(hs[i], cs'[i])
    ensures ReadyCount(hs, cs', k) >= ReadyCount(hs, cs, k)
  {
    if k > 0 { ReadyCountGrows(hs, cs, cs', k - 1); }
  }

  /** A child that is ready stays ready; one that has been asked to cancel does not count as ready. */
  lemma RedundantAnswer(hs: seq<Helper>, cs: seq<Checker>, cs': seq<Checker>, skippable: seq<bool>, minReady: nat, phase: Phase)
    requires |hs| == |cs| == |cs'| <= |skippable| && 1 <= minReady
    requires forall i: nat :: i < |hs| && IsReady(hs[i], cs[i]) ==> IsReady(hs[i], cs'[i])
    ensures (forall i: nat :: i < |hs| ==> !hs[i].NotStarted?) ==> !Enough(hs, cs', skippable, minReady)
    ensures phase.ReadyImmediately? && Enough(hs, cs, skippable, minReady) ==> Enough(hs, cs', skippable, minReady)
  {
    if forall i: nat :: i < |hs| ==> !hs[i].NotStarted? { NobodyReady(hs, cs', |hs|); }
    ReadyCountGrows(hs, cs, cs', |hs|);
  }

  /** Some child is ready if any is counted, and all are if all are counted. */
  lemma {:induction false} WhoIsReady(hs: seq<Helper>, cs: seq<Checker>, k: nat)
    requires k <= |hs| && k <= |cs|
    ensures ReadyCount(hs, cs, k) <= k
    ensures ReadyCount(hs, cs, k) > 0 ==> exists i: nat :: i < k && IsReady(hs[i], cs[i])
    ensures ReadyCount(hs, cs, k) == k ==> forall i: nat :: i < k ==> IsReady(hs[i], cs[i])
  {
    if k > 0 { WhoIsReady(hs, cs, k - 1); }
  }

  lemma {:induction false} AllCounted(hs: seq<Helper>, cs: seq<Checker>, k: nat)
    requires k <= |hs| && k <= |cs| && forall i: nat :: i < k ==> IsReady(hs[i], cs[i])
    ensures ReadyCount(hs, cs, k) == k
  {
    if k > 0 { AllCounted(hs, cs, k - 1); }
  }

  lemma {:induction false} ReadyCountFrame(hs: seq<Helper>, cs: seq<Checker>, cs': seq<Checker>, k: nat)
    requires k <= |hs| && k <= |cs| && k <= |cs'| && forall i: nat :: i < k ==> cs'[i] == cs[i]
    ensures ReadyCount(hs, cs', k) == ReadyCount(hs, cs, k)
  {
    if k > 0 { ReadyCountFrame(hs, cs, cs', k - 1); }
  }

  // ----- steps of the counter, on states

  /** Child i is counted, and a first error is kept. */
  function Tally(s: State, i: nat, failed: bool): State {
    s.(count := s.count + 1,
       reported := if i in s.reported then s.reported else s.reported + {i},
       doubled := if i in s.reported then s.doubled + {i} else s.doubled,
       error := if failed && s.error.None? then Some(i) else s.error,
       failures := if failed then s.failures + [i] else s.failures)
  }

  function ResumeParent(s: State): State
    requires s.muted || s.self.Pending()
  {
    if s.muted then s else s.(self := s.self.HandleResumed())
  }

  /** Child i is about to be reported: in its final state, and not counted, or to be counted twice. */
  ghost predicate Reporting(s: State, i: nat, failed: bool) {
    match s.self
    case Checker(_, _) =>
      if s.immediate then
        Immediate(s, i) && i < s.n && s.helper[i].Final() && (failed <==> s.helper[i].Failed?)
      else
        && Shape(s, -1) && Settled(s, i) && Counted(s) && Fired(s)
        && Counts(s, i) && (failed <==> s.helper[i].Failed?)
        && (i in s.reported ==> i < s.suspended && i !in s.doubled && !s.early && !s.muted && s.frames == 0 && s.helper[i].Cancelled?)
  }

  lemma TallySettles(s: State, i: nat, failed: bool)
    requires Reporting(s, i, failed) && !s.immediate
    ensures var s' := Tally(s, i, failed);
            Shape(s', -1) && Settled(s', -1) && Counted(s')
  {
    var s' := Tally(s, i, failed);
    assert forall j: nat :: Counts(s', j) <==> Counts(s, j);
    if failed { assert s.helper[i].Failed?; }
  }

  lemma TallyImmediate(s: State, i: nat, failed: bool)
    requires Reporting(s, i, failed) && s.immediate
    ensures Immediate(Tally(s, i, failed), -1)
  {
    if failed { assert s.helper[i].Failed?; }
  }

  /** At a report that reaches n, the parent is waiting (or muted): resuming it is legal. */
  lemma TallyFires(s: State, i: nat, failed: bool)
    requires Reporting(s, i, failed)
    ensures var s' := Tally(s, i, failed);
            && (s'.count == s.n ==> (s'.muted || s'.self.Pending()) && Inv(ResumeParent(s')))
            && (s'.count != s.n && s'.count != s.minReady && !(failed && !s.HasError()) ==> Inv(s'))
  {
    if s.immediate {
      TallyImmediate(s, i, failed);
    } else if s.count + 1 == s.n {
      TallyEnds(s, i, failed);
    } else if s.count + 1 != s.minReady && !(failed && !s.HasError()) {
      TallyGoesOn(s, i, failed);
    }
  }

  lemma TallyEnds(s: State, i: nat, failed: bool)
    requires Reporting(s, i, failed) && !s.immediate && s.count + 1 == s.n
    ensures var s' := Tally(s, i, failed); (s'.muted || s'.self.Pending()) && Inv(ResumeParent(s'))
  {
    var t := Tally(s, i, failed);
    TallySettles(s, i, failed);
    if !s.muted && s.frames == 0 { LastTally(s, i, failed); }
    assert t.muted || t.self.Pending();
    SameChildren(t, ResumeParent(t));
    EndedInv(t);
  }

  lemma EndedInv(t: State)
    requires Counted(t) && !t.immediate && t.count == t.n && (t.muted || t.self.Pending())
    requires Shape(ResumeParent(t), -1) && Settled(ResumeParent(t), -1) && (!t.muted && t.frames == 0 ==> AllAsked(t.helper))
    ensures Inv(ResumeParent(t))
  {
    hide Shape, Settled, AllAsked, Swept, Answered, SomeFailed, Triggered;
  }

  lemma TallyGoesOn(s: State, i: nat, failed: bool)
    requires Reporting(s, i, failed) && !s.immediate
    requires s.count + 1 != s.n && s.count + 1 != s.minReady && !(failed && !s.HasError())
    ensures Inv(Tally(s, i, failed))
  {
    TallySettles(s, i, failed);
    hide Shape, Settled, AllAsked;
  }

  /** When the count reaches n without a sweep, everybody has finished; otherwise everybody has been asked. */
  lemma LastTally(s: State, i: nat, failed: bool)
    requires Reporting(s, i, failed) && !s.immediate && s.count + 1 == s.n && !s.muted && s.frames == 0
    ensures AllAsked(s.helper)
  {
    TallySettles(s, i, failed);
    var s' := Tally(s, i, failed);
    if s'.doubled == {} {
      RangeCard(s'.reported, s.n);
      forall j: nat | j < |s.helper| ensures !s.helper[j].NotStarted? && !s.helper[j].Running? {
        assert Counts(s', j);
      }
    } else {
      var k :| k in s'.doubled;
      assert Counts(s', k);
      assert s.helper[k].Cancelled?;
    }
  }

  /** The frame that invoke() opens around internalCancel(). */
  lemma OpenFrame(s: State, i: nat, failed: bool)
    requires Reporting(s, i, failed) && s.count + 1 != s.n
    requires (failed && !s.HasError()) || s.count + 1 == s.minReady
    ensures var s' := Tally(s, i, failed).(count := s.count, frames := s.frames + 1, sweptAt := Earlier(s.sweptAt, s.suspended));
            Inv(s') && (Uncancelled(s'.self) ==> Justified(s'))
  {
    if s.immediate {
      TallyImmediate(s, i, failed);
    } else {
      var t := Tally(s, i, failed);
      var s' := t.(count := s.count, frames := s.frames + 1, sweptAt := Earlier(s.sweptAt, s.suspended));
      TallySettles(s, i, failed);
      SameChildren(t, s');
      TallyJustified(s, i, failed);
      assert i in t.reported;
      OpenedInv(s, t, s');
    }
  }

  lemma OpenedInv(s: State, t: State, s': State)
    requires Counted(t) && Fired(s) && !s.immediate && t.reported != {} && t.self == s.self && t.muted == s.muted && t.n == s.n
    requires t.immediate == s.immediate && t.count == s.count + 1
    requires s' == t.(count := s.count, frames := t.frames + 1, sweptAt := s'.sweptAt) && Shape(s', -1) && Settled(s', -1)
    requires Uncancelled(s.self) ==> Justified(t)
    ensures Inv(s') && (Uncancelled(s'.self) ==> Justified(s'))
  {
    hide Shape, Settled, AllAsked, Swept, Answered, SomeFailed, Triggered;
  }

  /** What triggers a sweep also justifies it. */
  lemma TallyJustified(s: State, i: nat, failed: bool)
    requires Reporting(s, i, failed) && !s.immediate && s.count + 1 != s.n
    requires (failed && !s.HasError()) || s.count + 1 == s.minReady
    ensures Uncancelled(s.self) ==> Justified(Tally(s, i, failed))
  {
    if s.helper[i].Cancelled? {
      assert Swept(s.helper);
    } else {
      assert Answered(s.helper);
    }
  }

  /** Where the children are, and who has been counted, does not depend on the count and on the parent. */
  lemma SameChildren(s: State, s': State)
    requires s' == s.(count := s'.count, frames := s'.frames, sweptAt := s'.sweptAt, self := s'.self)
    ensures Shape(s, -1) ==> Shape(s', -1)
    ensures Settled(s, -1) ==> Settled(s', -1)
  {}

  /** A cancellation frame is closed, and the parent resumed if everybody has been counted. */
  function LeftFrame(s: State): State
    requires s.frames > 0 && (s.count + 1 == s.n ==> s.muted || s.self.Pending())
  {
    var s' := s.(count := s.count + 1, frames := s.frames - 1);
    if s'.count == s.n then ResumeParent(s') else s'
  }

  lemma CloseFrame(s: State)
    requires Inv(s) && s.frames > 0 && AllAsked(s.helper)
    ensures s.count + 1 == s.n ==> s.muted || s.self.Pending()
    ensures Inv(LeftFrame(s))
  {}

  // ----- steps of a helper, on states

  function SetChild(s: State, i: nat, h: Helper, c: Checker): State
    requires i < |s.helper| == |s.child|
  {
    s.(helper := s.helper[i := h], child := s.child[i := c])
  }

  lemma SetChildEvolves(s: State, i: nat, h: Helper, c: Checker)
    requires i < |s.helper| == |s.child| && Later(s.helper[i], h) && h.Rank() <= s.helper[i].Rank()
    ensures Evolved(s, SetChild(s, i, h, c))
    ensures Rank(SetChild(s, i, h, c)) == Rank(s) - s.helper[i].Rank() + h.Rank()
  {
    RankUpdate(s.helper, i, h);
  }

  lemma FirstKeptAside(s: State, i: nat, h: Helper)
    requires i < |s.helper| && !s.helper[i].Failed? && FirstKept(s.error, s.failures, s.helper, -1)
    ensures FirstKept(s.error, s.failures, s.helper[i := h], i)
    ensures !h.Failed? ==> FirstKept(s.error, s.failures, s.helper[i := h], -1)
  {}

  lemma CalmSet(s: State, i: nat, h: Helper, c: Checker)
    requires i < |s.helper| == |s.child|
    requires || (s.helper[i].NotStarted? && s.child[i].MayEarlyCancel() && h == (if c.phase.Cancelled? then Helper.Cancelled else CancellationPending)
                 && (h.CancellationPending? ==> c == s.child[i].EarlyCancelReturned(false)))
             || (s.helper[i].Running? && h.Cancelled?)
    ensures Calm(s, SetChild(s, i, h, c))
  {}

  lemma KeepsAnswer(hs: seq<Helper>, i: nat, h: Helper)
    requires i < |hs| && !hs[i].Succeeded? && !hs[i].Failed? && !h.Failed?
    ensures Answered(hs) ==> Answered(hs[i := h])
    ensures SomeFailed(hs) <==> SomeFailed(hs[i := h])
  {
    var hs' := hs[i := h];
    if j: nat :| j < |hs| && (hs[j].Succeeded? || hs[j].Failed?) {
      assert hs'[j] == hs[j];
    }
    if j: nat :| j < |hs| && hs[j].Failed? {
      assert hs'[j].Failed?;
    }
    if j: nat :| j < |hs'| && hs'[j].Failed? {
      assert hs[j].Failed?;
    }
  }

  /** A child is asked to cancel, and has not finished yet. */
  lemma AskedInv(s: State, i: nat, h: Helper, c: Checker)
    requires Inv(s) && i < s.n && !s.helper[i].Final() && (h.Cancelling? || h.CancellationPending?) && (Uncancelled(s.self) ==> Justified(s))
    requires (s.frames > 0 || s.muted) && (h.Cancelling? ==> !s.prompt)
    requires Matches(h, c.phase)
    requires if s.immediate then s.helper[i].NotStarted? && AtHand(h, c, s.skips[i]) else if i < s.suspended then h.Live() else Waiting(h, c, s.skips[i], s.early)
    ensures Inv(SetChild(s, i, h, c))
    ensures Uncancelled(s.self) ==> Justified(SetChild(s, i, h, c))
  {
    KeepsAnswer(s.helper, i, h);
    if s.immediate { AskedAtOnce(s, i, h, c); } else { AskedShape(s, i, h, c); AskedSettled(s, i, h, c); }
    hide Shape, Settled, FirstKept;
  }

  lemma AskedAtOnce(s: State, i: nat, h: Helper, c: Checker)
    requires Inv(s) && s.immediate && i < s.n && s.helper[i].NotStarted? && h.CancellationPending? && AtHand(h, c, s.skips[i])
    ensures Inv(SetChild(s, i, h, c))
  {
    FirstKeptAside(s, i, h);
    hide FirstKept;
  }

  lemma AskedShape(s: State, i: nat, h: Helper, c: Checker)
    requires Inv(s) && !s.immediate && i < s.n && Matches(h, c.phase) && (h.Cancelling? ==> !s.prompt)
    requires if i < s.suspended then h.Live() else Waiting(h, c, s.skips[i], s.early)
    ensures Shape(SetChild(s, i, h, c), -1)
  {
    hide Settled, Counted, Fired;
  }

  lemma AskedSettled(s: State, i: nat, h: Helper, c: Checker)
    requires Inv(s) && !s.immediate && i < s.n && !s.helper[i].Final() && (h.Cancelling? || h.CancellationPending?)
    ensures Settled(SetChild(s, i, h, c), -1)
  {
    var s' := SetChild(s, i, h, c);
    FirstKeptAside(s, i, h);
    hide FirstKept, Counted, Fired;
    assert forall j: nat :: Counts(s', j) <==> Counts(s, j);
  }

  /** A child is cancelled: it is then to be reported. */
  lemma CancelledReports(s: State, i: nat, c: Checker)
    requires s.immediate ==> Inv(s) && i < s.n && s.helper[i].NotStarted? && c.phase.Cancelled?
    requires !s.immediate ==>
               && Shape(s, i) && Settled(s, -1) && Counted(s) && Fired(s)
               && i < s.n && !s.helper[i].Final() && c.phase.Cancelled? && (Uncancelled(s.self) ==> Justified(s))
               && (i >= s.suspended ==> s.skips[i] && !s.early && (s.frames > 0 || s.muted))
               && (i < s.suspended ==> s.helper[i].Cancelling? || (s.helper[i].Running? && (s.frames > 0 || s.muted)))
    ensures Reporting(SetChild(s, i, Helper.Cancelled, c), i, false)
    ensures i !in s.reported
  {
    KeepsAnswer(s.helper, i, Helper.Cancelled);
    if s.immediate {
      CancelledAtHand(s, i, c);
    } else {
      CancelledSettles(s, i, c);
      CancelledShape(s, i, c);
      hide Settled, Shape;
    }
  }

  lemma CancelledAtHand(s: State, i: nat, c: Checker)
    requires s.immediate && Inv(s) && i < s.n && s.helper[i].NotStarted? && c.phase.Cancelled?
    ensures Reporting(SetChild(s, i, Helper.Cancelled, c), i, false) && i !in s.reported
  {
    FirstKeptAside(s, i, Helper.Cancelled);
    hide FirstKept;
  }

  lemma CancelledShape(s: State, i: nat, c: Checker)
    requires Shape(s, i) && i < s.n && !s.helper[i].Final() && c.phase.Cancelled? && (i >= s.suspended ==> s.skips[i] && !s.early)
    ensures Shape(SetChild(s, i, Helper.Cancelled, c), -1)
  {}

  lemma CancelledSettles(s: State, i: nat, c: Checker)
    requires Shape(s, i) && Settled(s, -1) && i < s.n && !s.helper[i].Final() && (i >= s.suspended ==> !s.early)
    ensures var s' := SetChild(s, i, Helper.Cancelled, c); Settled(s', i) && Counts(s', i)
    ensures i !in s.reported
  {
    var s' := SetChild(s, i, Helper.Cancelled, c);
    FirstKeptAside(s, i, Helper.Cancelled);
    hide FirstKept;
    assert forall j: nat :: j != i ==> (Counts(s', j) <==> Counts(s, j));
  }

  /** The result of a child is to be asked for. */
  ghost predicate ResultDue(s: State, i: nat) {
    match s.self
    case Checker(_, _) =>
      if s.immediate then Inv(s) && i < s.n && (s.helper[i].Ready? || IsReady(s.helper[i], s.child[i]))
      else Shape(s, i) && Settled(s, -1) && Counted(s) && Fired(s) && i < s.suspended && s.helper[i].Live()
  }

  /** A child produces a value or an error: it is then to be reported. */
  lemma AnswerReports(s: State, i: nat, failed: bool, c: Checker)
    requires ResultDue(s, i) && c.phase.Done?
    ensures i < |s.helper| == |s.child| && !s.helper[i].Final() && (!s.immediate ==> s.helper[i].Live())
    ensures s.immediate ==> s.helper[i].Ready? || s.helper[i].NotStarted?
    ensures var h := if failed then Failed else Succeeded;
            Reporting(SetChild(s, i, h, c), i, failed)
    ensures i !in s.reported
  {
    if s.immediate { AnswerImmediate(s, i, failed, c); } else { AnswerLive(s, i, failed, c); }
  }

  lemma AnswerImmediate(s: State, i: nat, failed: bool, c: Checker)
    requires s.immediate && ResultDue(s, i) && c.phase.Done?
    ensures Reporting(SetChild(s, i, if failed then Failed else Succeeded, c), i, failed)
    ensures i !in s.reported
  {
    KeepsFailure(s.helper, i, if failed then Failed else Succeeded);
  }

  lemma AnswerLive(s: State, i: nat, failed: bool, c: Checker)
    requires !s.immediate && ResultDue(s, i) && c.phase.Done?
    ensures Reporting(SetChild(s, i, if failed then Failed else Succeeded, c), i, failed)
    ensures i !in s.reported
  {
    var h := if failed then Failed else Succeeded;
    var s' := SetChild(s, i, h, c);
    assert s'.helper[i] == h && Answered(s'.helper);
    assert forall j: nat :: j != i ==> (Counts(s', j) <==> Counts(s, j));
    KeepsFailure(s.helper, i, h);
  }

  lemma KeepsFailure(hs: seq<Helper>, i: nat, h: Helper)
    requires i < |hs| && !hs[i].Failed?
    ensures SomeFailed(hs) ==> SomeFailed(hs[i := h])
  {
    if j: nat :| j < |hs| && hs[j].Failed? {
      assert hs[i := h][j].Failed?;
    }
  }

  class Mux {
    const n: nat
    const minReady: nat
    const skips: seq<bool>
    const prompt: bool          // every child confirms a cancellation on the spot, and does nothing else then
    const skippable: seq<bool>  // children whose type promises that an early cancellation succeeds
    var helper: seq<Helper>
    var child: seq<Checker>
    var self: Checker
    var count: int
    var error: Option<nat>
    var failures: seq<nat>
    var muted: bool
    // bookkeeping
    var early: bool
    var suspended: nat
    var reported: set<nat>
    var doubled: set<nat>
    var frames: nat
    var sweptAt: nat
    var immediate: bool

    function Now(): State
      reads this
    {
      State(n, minReady, skips, helper, child, self, count, error, failures, muted, early, suspended, reported, doubled, frames, sweptAt, immediate, prompt)
    }

    /** parent_.resume() */
    method Resume()
      requires muted || self.Pending()
      modifies this`self
      ensures Now() == ResumeParent(old(Now()))
    {
      if !muted {
        self := self.HandleResumed();
      }
    }

    /** The first lines of MuxBase::invoke(). */
    method Count(i: nat, failed: bool) returns (firstFail: bool)
      modifies this`count, this`reported, this`doubled, this`error, this`failures
      ensures Now() == Tally(old(Now()), i, failed)
      ensures firstFail == (failed && !old(error.Some?))
    {
      count := count + 1;
      if i in reported {
        doubled := doubled + {i};
      } else {
        reported := reported + {i};
      }
      firstFail := failed && error.None?;
      if firstFail {
        error := Some(i);
      }
      if failed {
        failures := failures + [i];
      }
    }

    /** MuxBase::invoke(), called for child i. */
    method Invoke(i: nat, failed: bool)
      requires Reporting(Now(), i, failed)
      modifies this
      ensures Inv(Now())
      ensures Reported(old(Now()), i, Now())
      decreases Rank(Now()), 4
    {
      hide Inv, Reporting, Reported, Evolved, Shape, Settled, Counted, Fired, TotalRank, Calm, OnlySwept, AllLater, Justified, Immediate;
      ghost var s0 := Now();
      TallyFires(s0, i, failed);
      TallyReports(s0, i, failed);
      var firstFail := Count(i, failed);
      if count == n {
        Resume();
      } else if firstFail || count == minReady {
        SweepOthers(i, failed, s0);
      }
    }

    /** The sweep that a report starts. */
    method SweepOthers(i: nat, failed: bool, ghost s0: State)
      requires Reporting(s0, i, failed) && Now() == Tally(s0, i, failed)
      requires s0.count + 1 != s0.n && ((failed && !s0.HasError()) || s0.count + 1 == s0.minReady)
      modifies this
      ensures Inv(Now()) && Reported(s0, i, Now())
      decreases Rank(Now()), 3
    {
      hide Inv, Reporting, Reported, Evolved, Shape, Settled, Counted, Fired, TotalRank, Calm, OnlySwept, AllLater, Justified, Immediate;
      ReportingFacts(s0, i, failed);
      OpenFrame(s0, i, failed);
      EnterFrame();
      ghost var s1 := Now();
      var _ := InternalCancel();
      EvolvedFacts(s1, Now());
      FrameReports(s0, i, failed, s1, Now());
      CloseFrame(Now());
      LeaveFrame();
    }

    method EnterFrame()
      modifies this`count, this`frames, this`sweptAt
      ensures Now() == old(Now()).(count := old(count) - 1, frames := old(frames) + 1, sweptAt := Earlier(old(sweptAt), suspended))
    {
      count, frames, sweptAt := count - 1, frames + 1, Earlier(sweptAt, suspended);
    }

    method LeaveFrame()
      requires frames > 0 && (count + 1 == n ==> muted || self.Pending())
      modifies this`count, this`frames, this`self
      ensures Now() == LeftFrame(old(Now()))
    {
      count, frames := count + 1, frames - 1;
      if count == n {
        Resume();
      }
    }

    /** internalCancel(): asks every child that has not been asked yet. */
    method InternalCancel() returns (all: bool)
      requires frames > 0 || muted
      requires Inv(Now()) && (Uncancelled(self) ==> Justified(Now()))
      modifies this
      ensures Inv(Now()) && Evolved(old(Now()), Now())
      ensures |helper| == n && AllAsked(helper)
      ensures all ==> forall i: nat :: i < n ==> helper[i].Cancelled?
      ensures prompt && !all ==> exists i: nat :: i < n && !helper[i].Cancelled?
      ensures AllAsked(old(helper)) ==> Now() == old(Now())
      ensures Uncancelled(self) ==> Justified(Now())
      ensures immediate || prompt ==> Calm(old(Now()), Now())
      decreases Rank(Now()), 2
    {
      hide Inv, Evolved, TotalRank, Justified, Calm, OnlySwept, AllLater, Later;
      ghost var s0 := Now();
      EvolvedSelf(s0);
      InvFacts(s0);
      CalmSelf(s0);
      all := true;
      var i := 0;
      while i < n
        invariant i <= n == |helper| && (frames > 0 || muted)
        invariant Inv(Now()) && Evolved(s0, Now())
        invariant Rank(Now()) <= Rank(s0)
        invariant Uncancelled(self) ==> Justified(Now())
        invariant immediate == s0.immediate && (immediate || prompt ==> Calm(s0, Now()))
        invariant prompt ==> (all <==> forall j: nat :: j < i ==> helper[j].Cancelled?)
        invariant AllAsked(s0.helper) ==> Now() == s0
        invariant all ==> forall j: nat :: j < i ==> helper[j].Cancelled?
        invariant forall j: nat :: j < i ==> !helper[j].NotStarted? && !helper[j].Running?
      {
        ghost var s1 := Now();
        var r := Cancel(i);
        SweepTurn(s0, s1, Now());
        all := all && r;
        i := i + 1;
      }
    }

    /** MuxHelper::cancel(), once the combiner is bound. */
    method Cancel(i: nat) returns (cancelled: bool)
      requires frames > 0 || muted
      requires Inv(Now()) && i < n && (Uncancelled(self) ==> Justified(Now()))
      modifies this
      ensures Inv(Now()) && Evolved(old(Now()), Now())
      ensures i < |helper| && (cancelled <==> helper[i].Cancelled?)
      ensures old(i < |helper| && helper[i].NotStarted?) ==> (cancelled <==> skips[i])
      ensures !helper[i].NotStarted? && !helper[i].Running?
      ensures Uncancelled(self) ==> Justified(Now())
      ensures immediate || prompt ==> Calm(old(Now()), Now())
      ensures old(i < |helper| && !helper[i].NotStarted? && !helper[i].Running?) ==> Now() == old(Now())
      decreases Rank(Now()), 1
    {
      hide Inv, Evolved, Calm;
      InvFacts(Now());
      EvolvedSelf(Now());
      CalmSelf(Now());
      match helper[i] {
        case NotStarted => cancelled := CancelUnstarted(i);
        case Running =>
          if prompt {
            cancelled := CancelAtOnce(i);
          } else {
            cancelled := CancelRunning(i);
          }
        case _ => cancelled := helper[i].Cancelled?;
      }
    }

    method CancelUnstarted(i: nat) returns (cancelled: bool)
      requires frames > 0 || muted
      requires Inv(Now()) && i < n && helper[i].NotStarted? && (Uncancelled(self) ==> Justified(Now()))
      modifies this
      ensures Inv(Now()) && Evolved(old(Now()), Now())
      ensures i < |helper| && (cancelled <==> helper[i].Cancelled?)
      ensures old(i < |helper| && helper[i].NotStarted?) ==> (cancelled <==> skips[i])
      ensures !helper[i].NotStarted? && !helper[i].Running?
      ensures Uncancelled(self) ==> Justified(Now())
      ensures immediate || prompt ==> Calm(old(Now()), Now())
      decreases Rank(Now()), 0
    {
      hide Inv, Evolved, Reporting, Shape, Settled, Counted, Fired, Calm;
      ghost var s0 := Now();
      InvFacts(s0);
      InvParts(s0, i);
      var c := child[i].EarlyCancelReturned(skips[i]);
      cancelled := skips[i];
      var h := if cancelled then Helper.Cancelled else CancellationPending;
      SetChildEvolves(s0, i, h, c);
      CalmSet(s0, i, h, c);
      if cancelled {
        CancelledReports(s0, i, c);
      } else {
        AskedInv(s0, i, h, c);
      }
      Set(i, h, c);
      if cancelled {
        ghost var s1 := Now();
        Invoke(i, false);
        ReportedFacts(s1, i, Now());
        EvolvedTrans(s0, s1, Now());
        if immediate || prompt { CalmTrans(s0, s1, Now()); }
      }
      EvolvedAnswer(s0, Now());
    }

    /** cancel() of a child that confirms it on the spot. */
    method CancelAtOnce(i: nat) returns (cancelled: bool)
      requires frames > 0 || muted
      requires Inv(Now()) && i < n && helper[i].Running? && !immediate && prompt && (Uncancelled(self) ==> Justified(Now()))
      modifies this
      ensures Inv(Now()) && Evolved(old(Now()), Now())
      ensures cancelled && i < |helper| && helper[i].Cancelled?
      ensures Uncancelled(self) ==> Justified(Now())
      ensures Calm(old(Now()), Now())
      decreases Rank(Now()), 0
    {
      hide Inv, Evolved, Reporting, Shape, Settled, Counted, Fired, Calm;
      ghost var s0 := Now();
      InvFacts(s0);
      InvParts(s0, i);
      var c := child[i].CancelRequested().CancelConfirmed();
      SetChildEvolves(s0, i, Helper.Cancelled, c);
      CalmSet(s0, i, Helper.Cancelled, c);
      CancelledReports(s0, i, c);
      Set(i, Helper.Cancelled, c);
      ghost var s1 := Now();
      Invoke(i, false);
      ReportedFacts(s1, i, Now());
      EvolvedTrans(s0, s1, Now());
      CalmTrans(s0, s1, Now());
      EvolvedAnswer(s0, Now());
      cancelled := true;
    }

    method CancelRunning(i: nat) returns (cancelled: bool)
      requires frames > 0 || muted
      requires Inv(Now()) && i < n && helper[i].Running? && !immediate && !prompt && (Uncancelled(self) ==> Justified(Now()))
      modifies this
      ensures !immediate
      ensures Inv(Now()) && Evolved(old(Now()), Now())
      ensures i < |helper| && (cancelled <==> helper[i].Cancelled?)
      ensures !helper[i].NotStarted? && !helper[i].Running?
      ensures Uncancelled(self) ==> Justified(Now())
      decreases Rank(Now()), 0
    {
      hide Inv, Evolved, Reporting, Shape, Settled, Counted, Fired;
      ghost var s0 := Now();
      InvFacts(s0);
      var c := child[i].CancelRequested();
      AskedInv(s0, i, Helper.Cancelling, c);
      SetChildEvolves(s0, i, Helper.Cancelling, c);
      helper, child := helper[i := Helper.Cancelling], child[i := c];
      ghost var s1 := Now();
      Environment();
      EvolvedTrans(s0, s1, Now());
      EvolvedAnswer(s0, Now());
      EvolvedFacts(s1, Now());
      assert Later(Helper.Cancelling, helper[i]);
      cancelled := helper[i].Cancelled?;
      var confirms: bool := *;
      if helper[i].Cancelling? && confirms {
        ghost var s2 := Now();
        ConfirmCancel(i);
        EvolvedTrans(s0, s2, Now());
        EvolvedAnswer(s2, Now());
        cancelled := true;
      }
    }

    /** await_cancel() of child i returned true, or its await_must_resume() returned false. */
    method ReportCancelled(i: nat, c: Checker)
      requires var s := Now(); !s.immediate && Shape(s, i) && Settled(s, -1) && Counted(s) && Fired(s)
      requires i < suspended <= n && helper[i].Cancelling? && c.phase.Cancelled?
      modifies this
      ensures Inv(Now()) && Evolved(old(Now()), Now())
      ensures i < |helper| && helper[i].Cancelled?
      ensures SweepSeen(old(Now()), Now())
      decreases Rank(Now()), 0
    {
      hide Inv, Evolved, Reporting, Reported, OnlySwept, TotalRank, AllLater, Shape, Settled, Counted, Fired;
      ghost var s0 := Now();
      ShapeSizes(s0, i);
      SweptAnswered(s0, i);
      CancelledReports(s0, i, c);
      SetChildEvolves(s0, i, Helper.Cancelled, c);
      Set(i, Helper.Cancelled, c);
      ghost var s1 := Now();
      Invoke(i, false);
      ReportedFacts(s1, i, Now());
      EvolvedTrans(s0, s1, Now());
      EvolvedFacts(s1, Now());
      SweepTrans(s0, s1, Now());
    }

    method ConfirmCancel(i: nat)
      requires Inv(Now()) && i < n && i < |helper| && helper[i].Cancelling?
      modifies this
      ensures Inv(Now()) && Evolved(old(Now()), Now())
      ensures i < |helper| && helper[i].Cancelled?
      decreases Rank(Now()), 1
    {
      ReportCancelled(i, child[i].CancelConfirmed());
    }

    /** Child i resumes the handle it was given: MuxHelper::invoke(). */
    method ChildResumes(i: nat)
      requires Inv(Now()) && i < n && i < |helper| && helper[i].Live()
      modifies this
      ensures Inv(Now()) && Evolved(old(Now()), Now())
      ensures i < |helper| && helper[i].Final()
      ensures SweepSeen(old(Now()), Now())
      decreases Rank(Now()), 4
    {
      ghost var s0 := Now();
      AheadInv(s0, i);
      child := child[i := child[i].HandleResumed()];
      Complete(i);
      hide Inv, Evolved;
      AheadEvolves(s0, i, Now());
    }

    /** The rest of MuxHelper::invoke(): asks the child for its outcome and reports it. */
    method Complete(i: nat)
      requires var s := Now(); !s.immediate && Shape(s, i) && Settled(s, -1) && Counted(s) && Fired(s)
      requires i < suspended <= n && helper[i].Live()
      requires if helper[i].Running? then child[i].MayResume() else child[i].MayAskMustResume()
      modifies this
      ensures Inv(Now()) && Evolved(old(Now()), Now())
      ensures i < |helper| && helper[i].Final()
      ensures SweepSeen(old(Now()), Now())
      decreases Rank(Now()), 3
    {
      var c := child[i];
      var must := true;
      if helper[i].Cancelling? {
        must := *;
        c := c.MustResumeReturned(must);
      }
      if must {
        var failed: bool := *;
        ReportResult(i, c.Resumed(), failed);
      } else {
        ReportCancelled(i, c);
      }
    }

    /** MuxHelper::reportResult() */
    method ReportResult(i: nat, c: Checker, failed: bool)
      requires ResultDue(Now(), i) && c.phase.Done?
      modifies this
      ensures Inv(Now()) && Evolved(old(Now()), Now())
      ensures i < |helper| && helper[i] == if failed then Failed else Succeeded
      ensures !immediate ==> SweepSeen(old(Now()), Now())
      ensures i < old(|helper|) == old(|child|) && Reported(SetChild(old(Now()), i, helper[i], c), i, Now())
      decreases Rank(Now()), 0
    {
      hide Inv, Evolved, Reporting, Reported, ResultDue, TotalRank, Shape, Settled, Counted, Fired, Calm, OnlySwept, AllLater;
      ghost var s0 := Now();
      var h := if failed then Failed else Succeeded;
      AnswerReports(s0, i, failed, c);
      SetChildEvolves(s0, i, h, c);
      assert !immediate ==> helper[i].Live();
      Set(i, h, c);
      ghost var s1 := Now();
      Invoke(i, failed);
      ReportedFacts(s1, i, Now());
      EvolvedTrans(s0, s1, Now());
      EvolvedFacts(s1, Now());
      if !immediate { SweepTrans(s0, s1, Now()); }
    }

    /** Anything the children may do while one of them is being called: resume handles, and have the
        combiner cancelled once it is suspended. */
    method Environment()
      requires Inv(Now())
      modifies this
      ensures Inv(Now()) && Evolved(old(Now()), Now())
      ensures SweepSeen(old(Now()), Now())
      decreases Rank(Now()), 5
    {
      hide Inv, Evolved;
      ghost var s0 := Now();
      EvolvedSelf(s0);
      var steps: nat := *;
      while steps > 0
        invariant Inv(Now()) && Evolved(s0, Now())
        invariant Rank(Now()) <= Rank(s0)
        invariant SweepSeen(s0, Now())
      {
        ghost var s1 := Now();
        InvFacts(s1);
        var i: int := *;
        if 0 <= i < n && helper[i].Live() {
          ChildResumes(i);
          EvolvedTrans(s0, s1, Now());
          EvolvedFacts(s1, Now());
          SweepTrans(s0, s1, Now());
        } else if self.MayCancel() {
          var _ := AwaitCancel();
          EvolvedTrans(s0, s1, Now());
          EvolvedFacts(s1, Now());
          SweepTrans(s0, s1, Now());
        }
        EvolvedFacts(s0, Now());
        steps := steps - 1;
      }
    }

    /** await_cancel(), at any time once await_suspend() has been called.  If some child has been counted twice
        already, everybody has been asked, and nothing happens.  If children confirm cancellations on the
        spot, it is known beforehand whether the combiner will; and for anyOf it always will, if they accept
        early cancellations too. */
    method AwaitCancel() returns (confirmed: bool)
      requires Inv(Now()) && self.MayCancel()
      modifies this
      ensures Inv(Now()) && Evolved(old(Now()), Now()) && SweepSeen(old(Now()), Now())
      ensures confirmed <==> self.phase.Cancelled?
      ensures |helper| == n
      ensures confirmed ==> forall i: nat :: i < n ==> helper[i].Cancelled?
      ensures forall i: nat :: i < n ==> !helper[i].NotStarted? && !helper[i].Running?
      ensures AllAsked(old(helper)) ==> helper == old(helper) && child == old(child)
      ensures old(doubled) != {} ==> !confirmed && helper == old(helper) && child == old(child)
      ensures prompt ==> (confirmed <==> old(ConfirmAtOnce(helper, skips)))
      ensures prompt && minReady == 1 && old(frames) == 0 ==> (confirmed <==> old(NobodyRefuses(helper, skips)))
      ensures prompt && minReady == 1 && old(frames) == 0 && (forall i: nat :: i < n ==> skips[i]) ==> confirmed
      decreases Rank(Now()), 4
    {
      hide Inv, Evolved, Calm, ConfirmAtOnce, NobodyRefuses;
      ghost var s0 := Now();
      MutedInv(s0);
      self, muted, sweptAt := self.CancelRequested(), true, Earlier(sweptAt, suspended);
      ghost var s1 := Now();
      var all := InternalCancel();
      ghost var s2 := Now();
      UnmutedInv(s0, s1, s2, all);
      if prompt {
        PromptOutcome(s0, s1, s2);
        NobodyToRefuse(s0);
        if minReady == 1 && s0.frames == 0 { RefusedExactly(s0); }
      }
      confirmed := all;
      Unmute(all);
    }

    method Unmute(all: bool)
      requires self.phase.Cancelling?
      modifies this`muted, this`self
      ensures Now() == Unmuted(old(Now()), all)
    {
      muted := false;
      if all {
        self := self.CancelConfirmed();
      } else if count == n {
        Resume();
      }
    }

    // ----- before the combiner is suspended

    constructor (minReady: nat, skips: seq<bool>, skippable: seq<bool>, prompt: bool)
      requires 1 <= minReady <= |skips| == |skippable|
      requires forall i :: 0 <= i < |skips| && skippable[i] ==> skips[i]
      ensures Fresh(Now()) && KeepsWord() && !early && self == Checker(Initial, false)
      ensures this.minReady == minReady && this.skips == skips && this.skippable == skippable && this.prompt == prompt
      ensures forall i: nat :: i < n ==> child[i] == Checker(Initial, false)
    {
      n, this.minReady, this.skips, this.skippable, this.prompt := |skips|, minReady, skips, skippable, prompt;
      helper := seq(|skips|, _ => NotStarted);
      child := seq(|skips|, _ => Checker(Initial, false));
      self := Checker(Initial, false);
      count, error, failures, muted, early := 0, None, [], false, false;
      suspended, reported, doubled, frames, sweptAt, immediate := 0, {}, {}, 0, |skips|, false;
    }

    /** What await_ready() has told the parent still holds, and children promise no more than they do. */
    ghost predicate KeepsWord()
      requires |helper| == |child| == n == |skips|
      reads this
    {
      && |skippable| == n && (forall i: nat :: i < n && skippable[i] ==> skips[i])
      && (self.phase.ReadyImmediately? ==> Enough(helper, child, skippable, minReady))
      && (self.phase.ReadyAfterCancel? ==> forall i: nat :: i < n && helper[i].CancellationPending? ==> child[i].phase.ReadyAfterCancel?)
    }

    /** await_ready(): enough children are ready, and the others need not be started.  Once the combiner has
        refused an early cancellation it is never ready, so the checker accepts the answer exactly unless
        that happened when it was ready. */
    method AwaitReady(answers: set<nat>) returns (ready: bool)
      requires Fresh(Now()) && KeepsWord() && self.MayAskReady()
      modifies this`child, this`self
      ensures Fresh(Now()) && KeepsWord()
      ensures ready <==> Enough(helper, child, skippable, minReady)
      ensures forall i: nat :: i < n ==> child[i] == Asked(helper[i], old(child)[i], i in answers)
      ensures early ==> !ready
      ensures old(self).MayAnswerReady(ready) <==> !old(self).phase.ReadyAfterCancel?
      ensures self == if old(self).MayAnswerReady(ready) then old(self).ReadyReturned(ready) else old(self)
    {
      ghost var before := child;
      ready := CountReady(answers);
      hide Enough;
      RedundantAnswer(helper, before, child, skippable, minReady, self.phase);
      if self.MayAnswerReady(ready) {
        self := self.ReadyReturned(ready);
      }
    }

    /** The two counts that await_ready() compares. */
    method CountReady(answers: set<nat>) returns (enough: bool)
      requires |helper| == |child| == n <= |skippable|
      requires forall i: nat :: i < n ==> Matches(helper[i], child[i].phase) && !helper[i].Live() && !helper[i].Ready? && !helper[i].Succeeded? && !helper[i].Failed?
      modifies this`child
      ensures |child| == n && (enough <==> Enough(helper, child, skippable, minReady))
      ensures forall i: nat :: i < n ==> Matches(helper[i], child[i].phase) && child[i] == Asked(helper[i], old(child)[i], i in answers)
    {
      var nReady, skip, i := 0, true, 0;
      while i < n
        invariant i <= n == |child|
        invariant forall j: nat :: j < n ==> Matches(helper[j], child[j].phase)
        invariant forall j: nat :: j < n ==> child[j] == if j < i then Asked(helper[j], old(child)[j], j in answers) else old(child)[j]
        invariant nReady == ReadyCount(helper, child, i)
        invariant skip <==> forall j: nat :: j < i ==> IsReady(helper[j], child[j]) || skippable[j]
      {
        ghost var before := child;
        var ans := AskReady(i, i in answers);
        ReadyCountFrame(helper, before, child, i);
        nReady := if ans then nReady + 1 else nReady;
        skip := skip && (ans || skippable[i]);
        i := i + 1;
      }
      enough := nReady >= minReady && skip;
    }

    /** MuxHelper::ready() */
    method AskReady(i: nat, answer: bool) returns (ready: bool)
      requires i < |helper| == |child| && Matches(helper[i], child[i].phase) && !helper[i].Live()
      modifies this`child
      ensures child == old(child)[i := Asked(helper[i], old(child)[i], answer)]
      ensures Matches(helper[i], child[i].phase)
      ensures helper[i].NotStarted? || helper[i].CancellationPending? || helper[i].Cancelled? ==> (ready <==> IsReady(helper[i], child[i]))
      ensures helper[i].Ready? || helper[i].Succeeded? || helper[i].Failed? ==> ready
    {
      ready := helper[i].Ready? || helper[i].Succeeded? || helper[i].Failed?;
      if helper[i].NotStarted? {
        ready := answer || child[i].phase.ReadyImmediately?;
        child := child[i := child[i].ReadyReturned(ready)];
      }
    }

    /** await_early_cancel() */
    method AwaitEarlyCancel() returns (all: bool)
      requires Fresh(Now()) && KeepsWord() && !early && self.MayEarlyCancel()
      modifies this`helper, this`child, this`self, this`early
      ensures Fresh(Now()) && early && KeepsWord()
      ensures forall i: nat :: i < n ==> helper[i] == if skips[i] then Helper.Cancelled else CancellationPending
      ensures forall i: nat :: i < n ==> child[i] == old(child)[i].EarlyCancelReturned(skips[i])
      ensures all <==> forall i: nat :: i < n ==> skips[i]
      ensures self == old(self).EarlyCancelReturned(all)
    {
      all := CancelAll();
      early := true;
      self := self.EarlyCancelReturned(all);
    }

    /** internalCancel() before the combiner is bound: every child is asked to cancel early. */
    method CancelAll() returns (all: bool)
      requires |helper| == |child| == |skips| == n
      requires forall i: nat :: i < n ==> helper[i].NotStarted? && Matches(helper[i], child[i].phase)
      modifies this`helper, this`child
      ensures |helper| == |child| == n && forall i: nat :: i < n ==> Matches(helper[i], child[i].phase)
      ensures forall i: nat :: i < n ==> helper[i] == if skips[i] then Helper.Cancelled else CancellationPending
      ensures forall i: nat :: i < n ==> old(child)[i].MayEarlyCancel() && child[i] == old(child)[i].EarlyCancelReturned(skips[i])
      ensures all <==> forall i: nat :: i < n ==> skips[i]
    {
      all := true;
      var i := 0;
      while i < n
        invariant i <= n == |helper| == |child|
        invariant forall j: nat :: j < n ==> Matches(helper[j], child[j].phase)
        invariant forall j: nat :: j < i ==> helper[j] == if skips[j] then Helper.Cancelled else CancellationPending
        invariant forall j: nat :: i <= j < n ==> helper[j].NotStarted? && child[j] == old(child)[j]
        invariant forall j: nat :: j < i ==> child[j] == old(child)[j].EarlyCancelReturned(skips[j])
        invariant all <==> forall j: nat :: j < i ==> skips[j]
      {
        child := child[i := child[i].EarlyCancelReturned(skips[i])];
        helper := helper[i := if skips[i] then Helper.Cancelled else CancellationPending];
        all := all && skips[i];
        i := i + 1;
      }
    }

    /** await_set_executor(), passed on to the children that are still to be started.  The checker accepts
        it exactly if no child was found ready before it refused an early cancellation. */
    method AwaitSetExecutor() returns (accepted: bool)
      requires Fresh(Now()) && self.MaySetExecutor()
      modifies this`child, this`self
      ensures accepted <==> forall i: nat :: i < n ==> !old(child)[i].phase.ReadyAfterCancel?
      ensures |child| == n && (!accepted ==> self == old(self) && exists i: nat :: i < n && child[i].phase.ReadyAfterCancel?)
      ensures accepted ==> (Fresh(Now()) && self == old(self).SetExecutor())
      ensures accepted ==> forall i: nat :: i < n ==>
                && !old(child)[i].phase.ReadyAfterCancel?
                && child[i] == if old(helper)[i].Cancelled? then old(child)[i] else old(child)[i].SetExecutor()
    {
      var i := 0;
      accepted := true;
      while i < n && accepted
        invariant i <= n == |child| && self == old(self)
        invariant forall j: nat :: j < i ==> !old(child)[j].phase.ReadyAfterCancel?
        invariant forall j: nat :: j < i ==>
                    child[j] == if helper[j].Cancelled? then old(child)[j] else old(child)[j].SetExecutor()
        invariant forall j: nat :: i <= j < n ==> child[j] == old(child)[j]
        invariant !accepted ==> i < n && old(child)[i].phase.ReadyAfterCancel?
        decreases n - i, accepted
      {
        if !helper[i].Cancelled? {
          accepted := child[i].MaySetExecutor();
          if accepted {
            child := child[i := child[i].SetExecutor()];
          }
        }
        if accepted {
          i := i + 1;
        }
      }
      if accepted {
        self := self.SetExecutor();
      }
    }

    // ----- suspending

    /** MuxHelper::suspend() for the next child. */
    method SuspendChild(k: nat)
      requires Inv(Now()) && k == suspended < n && !muted && frames == 0
      modifies this
      ensures Inv(Now()) && Suspends(old(Now()), k, Now())
    {
      hide Inv, Suspends, Evolved;
      InvFacts(Now());
      if helper[k].Cancelled? {
        ReportAgain(k);
      } else {
        KickOff(k);
      }
    }

    /** suspend() of a child that is already cancelled reports it, whether or not that has been done. */
    method ReportAgain(k: nat)
      requires Inv(Now()) && k == suspended < n == |helper| && !muted && frames == 0 && helper[k].Cancelled?
      modifies this
      ensures Inv(Now()) && Suspends(old(Now()), k, Now())
    {
      ghost var s0 := Now();
      ReachCancelled(s0, k);
      hide Inv, Suspends, Evolved, Reporting, Reported, SweepSeen, OnlySwept, TotalRank, AllLater, Shape, Settled, Counted, Fired;
      suspended := suspended + 1;
      assert Now() == s0.(suspended := k + 1);
      Invoke(k, false);
      AgainSuspends(s0, k, Now());
    }

    /** MuxHelper::kickOff() */
    method KickOff(k: nat)
      requires Inv(Now()) && k == suspended < n == |helper| == |child| && !muted && !helper[k].Cancelled?
      modifies this
      ensures Inv(Now()) && Suspends(old(Now()), k, Now())
    {
      hide Inv, Suspends, Evolved, Shape, Settled, Counted, Fired, SweepSeen;
      ghost var s0 := Now();
      KickOffFacts(s0, k);
      var h := if helper[k].CancellationPending? then Helper.Cancelling else Helper.Running;
      var ready: bool := *;
      ready := ready || child[k].phase.ReadyImmediately? || child[k].phase.ReadyAfterCancel?;
      var c := child[k].ReadyReturned(ready);
      if !ready {
        c := c.Suspended();
      }
      KickOffInv(s0, k, h, c);
      Begin(k, h, c);
      ghost var s1 := Now();
      StartedWith(k, ready);
      hide *;
      KickOffSuspends(s0, k, h, c, s1, Now());
    }

    method Set(i: nat, h: Helper, c: Checker)
      requires i < |helper| == |child|
      modifies this`helper, this`child
      ensures Now() == SetChild(old(Now()), i, h, c)
    {
      helper, child := helper[i := h], child[i := c];
    }

    method Begin(k: nat, h: Helper, c: Checker)
      requires k < |helper| == |child|
      modifies this`suspended, this`helper, this`child
      ensures Now() == SetChild(old(Now()), k, h, c).(suspended := k + 1)
    {
      suspended := k + 1;
      helper, child := helper[k := h], child[k := c];
    }

    /** kickOff() of the first child, which fails: by an error in its result, if it was ready, or by an
        exception from await_suspend(). */
    method FirstFails()
      requires MidSuspend(Now()) && suspended == 0 && !early && n >= 2 && sweptAt == n
      modifies this
      ensures MidSuspend(Now()) && suspended == 1 && sweptAt == 1 && early == old(early)
    {
      ghost var s0 := Now();
      MidFacts(s0);
      InvFacts(s0);
      MidNotStarted(s0);
      KickOffFacts(s0, 0);
      var ready := child[0].phase.ReadyImmediately?;
      var c := child[0].ReadyReturned(ready);
      if !ready {
        c := c.Suspended();
      }
      KickOffInv(s0, 0, Helper.Running, c);
      hide Inv, Suspends, Evolved, Shape, Settled, Counted, Fired, SweepSeen, MidSuspend;
      Begin(0, Helper.Running, c);
      ghost var s1 := Now();
      ReportResult(0, if ready then c.Resumed() else c.SuspendThrew(), true);
      KickOffSuspends(s0, 0, Helper.Running, c, s1, Now());
      SuspendsFacts(s0, 0, Now());
      MidStep(s0, 0, Now());
      FailureSweeps(s0, s1, Now());
    }

    /** kickOff() of the first of two children, which was ready and has a value. */
    method FirstSucceeds()
      requires Inv(Now()) && suspended == 0 && !muted && frames == 0 && n == 2 && minReady == 1 && prompt && self.phase.Running?
      requires |helper| == |child| == 2 && helper[0].NotStarted? && helper[1].NotStarted? && child[0].phase.ReadyImmediately?
      modifies this
      ensures Inv(Now()) && suspended == 1 && !muted && frames == 0 && |helper| == |child| == 2 && helper[0].Succeeded? && early == old(early)
      ensures Calm(SetChild(old(Now()), 0, Succeeded, old(child)[0].Resumed()), Now())
    {
      ghost var s0 := Now();
      KickOffFacts(s0, 0);
      var c := child[0];
      KickOffInv(s0, 0, Helper.Running, c);
      hide Inv, Suspends, Evolved, Shape, Settled, Counted, Fired, SweepSeen, Calm, Reported;
      Begin(0, Helper.Running, c);
      ghost var s1 := Now();
      ReportResult(0, c.Resumed(), false);
      EvolvedFacts(s1, Now());
      ReportedFacts(SetChild(s1, 0, Succeeded, c.Resumed()), 0, Now());
      InvFacts(Now());
    }

    /** kickOff() of the second, which is not ready, and waits. */
    method SecondWaits()
      requires Inv(Now()) && suspended == 1 && !muted && frames == 0 && n == 2 && |helper| == |child| == 2 && self.phase.Running?
      requires helper[0].Succeeded? && helper[1].CancellationPending? && child[1].phase.CancelPending?
      modifies this`suspended, this`helper, this`child
      ensures Inv(Now()) && suspended == 2 && frames == 0 && |helper| == 2 && helper[0].Succeeded? && helper[1].Cancelling?
    {
      KickOffFacts(Now(), 1);
      var c := child[1].ReadyReturned(false).Suspended();
      KickOffInv(Now(), 1, Helper.Cancelling, c);
      hide Inv;
      Begin(1, Helper.Cancelling, c);
    }

    /** The child was ready, or await_suspend() has been called on it and throws or returns. */
    method StartedWith(k: nat, ready: bool)
      requires var s := Now(); !s.immediate && Shape(s, k) && Settled(s, -1) && Counted(s) && Fired(s)
      requires k < suspended <= n && helper[k].Live()
      requires ready ==> if helper[k].Running? then child[k].MayResume() else child[k].MayAskMustResume()
      requires !ready ==> Inv(Now()) && child[k].Pending()
      modifies this
      ensures Inv(Now()) && Evolved(old(Now()), Now()) && SweepSeen(old(Now()), Now())
      ensures ready ==> k < |helper| && helper[k].Final()
    {
      hide Inv, Evolved, Settled, Counted, Fired, SweepSeen;
      if ready {
        Complete(k);
      } else {
        ghost var s0 := Now();
        Environment();
        ghost var s1 := Now();
        EvolvedFacts(s0, s1);
        var throws: bool := *;
        if throws && helper[k].Live() {
          InvParts(s1, k);
          InvFacts(s1);
          ReportResult(k, child[k].SuspendThrew(), true);
          EvolvedFacts(s1, Now());
          EvolvedTrans(s0, s1, Now());
          SweepTrans(s0, s1, Now());
        }
      }
    }

    /** await_suspend().  The children that are counted twice are exactly those that accept an early
        cancellation and come after those that had been suspended when internalCancel() was first called. */
    method AwaitSuspend()
      requires Fresh(Now()) && self.MaySuspend()
      requires forall i: nat :: i < n && !helper[i].Cancelled? ==> child[i].hasExecutor
      modifies this
      ensures Inv(Now()) && suspended == n && frames == 0 && !muted && early == old(early)
      ensures 1 <= sweptAt <= n && doubled == if early then {} else Skipping(skips, sweptAt, n)
      ensures early || NobodySkips(skips) ==> doubled == {}
    {
      BindInv(Now());
      MidStart(Now());
      self := self.Suspended();
      hide Fresh;
      SuspendRest();
      assert NobodySkips(skips) ==> Skipping(skips, sweptAt, n) == {};
    }

    /** The rest of the loop over the children. */
    method SuspendRest()
      requires MidSuspend(Now()) && suspended <= n
      modifies this
      ensures Inv(Now()) && suspended == n && frames == 0 && !muted && early == old(early)
      ensures 1 <= sweptAt <= n && doubled == if early then {} else Skipping(skips, sweptAt, n)
      ensures sweptAt <= old(sweptAt)
    {
      hide Inv, MidSuspend, Suspends, Skipping;
      while suspended < n
        invariant MidSuspend(Now()) && suspended <= n && early == old(early) && sweptAt <= old(sweptAt)
        decreases n - suspended
      {
        var k := suspended;
        ghost var s1 := Now();
        MidFacts(s1);
        SuspendChild(k);
        SuspendsFacts(s1, k, Now());
        MidStep(s1, k, Now());
      }
      MidFacts(Now());
    }

    // ----- results without suspending

    /** Looks for the first child that is ready. */
    method FirstReady(ghost whole: bool) returns (r: nat)
      requires Inv(Now()) && immediate && exists i: nat :: i < n && IsAtHand(helper[i], child[i])
      requires forall i: nat :: i < n ==> helper[i].NotStarted? || helper[i].Ready? || helper[i].Cancelled?
      requires error.None? && (whole ==> minReady == n && AllAtHand(Now()))
      modifies this`child
      ensures Inv(Now()) && r < n == |child| && IsAtHand(helper[r], child[r])
      ensures forall j: nat :: j < n && old(j < |helper| && j < |child| && IsAtHand(helper[j], child[j])) ==> r <= j
      ensures whole ==> AllAtHand(Now())
    {
      ghost var asked := child;
      hide Inv, Evolved, AtHand, Matches, IsAtHand, AllAtHand, Asked;
      InvFacts(Now());
      MatchesAll(Now());
      ghost var w: nat :| w < n && IsAtHand(helper[w], child[w]);
      r := 0;
      var found := false;
      while !found
        invariant Inv(Now()) && r <= w < n == |child| == |helper| && MatchingAll(Now())
        invariant IsAtHand(helper[w], child[w])
        invariant found ==> IsAtHand(helper[r], child[r])
        invariant |asked| == n && forall j: nat :: j < r ==> !IsAtHand(helper[j], asked[j])
        invariant forall j: nat :: r <= j < n && !(found && j == r) ==> child[j] == asked[j]
        invariant whole ==> AllAtHand(Now())
        decreases w - r, !found
      {
        ghost var s := Now();
        var answer: bool := *;
        LookedAt(s, r, answer);
        found := AskReady(r, answer);
        AnswerIsAtHand(helper[r], child[r], found);
        if !found {
          r := r + 1;
        }
      }
    }

    /** MuxHelper::mustResume() of a child, when the combiner has not been suspended: settles a child that
        was ready and then refused to be cancelled. */
    method MustResume(i: nat, answer: bool) returns (must: bool)
      requires i < |helper| == |child| && Matches(helper[i], child[i].phase)
      requires helper[i].NotStarted? || (helper[i].CancellationPending? && child[i].MayAskMustResume()) || helper[i].Cancelled? || helper[i].Ready?
      modifies this`helper, this`child
      ensures |helper| == old(|helper|) == |child| && forall j: nat :: j < |child| && j != i ==> child[j] == old(child)[j] && helper[j] == old(helper)[j]
      ensures Matches(helper[i], child[i].phase)
      ensures if old(helper)[i].CancellationPending? then must == answer && helper[i] == (if answer then Helper.Ready else Helper.Cancelled)
                   && child[i] == old(child)[i].MustResumeReturned(answer)
              else helper == old(helper) && child == old(child) && must == !helper[i].Cancelled?
    {
      must := !helper[i].Cancelled?;
      if helper[i].CancellationPending? {
        must := answer;
        child := child[i := child[i].MustResumeReturned(answer)];
        helper := helper[i := if answer then Helper.Ready else Helper.Cancelled];
      }
    }

    /** await_must_resume() after an early cancellation that failed, although await_ready() had been true:
        every child is asked, and those in `answers` must resume. `all` tells allOf from anyOf and mostOf. */
    method AwaitMustResume(all: bool, answers: set<nat>) returns (must: bool)
      requires Fresh(Now()) && KeepsWord() && early && self.MayAskMustResume()
      modifies this`helper, this`child, this`self
      ensures |helper| == |child| == n && self == old(self).MustResumeReturned(must)
      ensures forall i: nat :: i < n ==>
                && helper[i] == (if old(helper)[i].CancellationPending? && i in answers then Helper.Ready else Helper.Cancelled)
                && Matches(helper[i], child[i].phase)
      ensures must <==> if all then forall i: nat :: i < n ==> helper[i].Ready? else exists i: nat :: i < n && helper[i].Ready?
    {
      var any, every, i := false, true, 0;
      while i < n
        invariant i <= n == |helper| == |child| && self == old(self)
        invariant forall j: nat :: i <= j < n ==> helper[j] == old(helper)[j] && child[j] == old(child)[j]
        invariant forall j: nat :: j < i ==>
                    && helper[j] == (if old(helper)[j].CancellationPending? && j in answers then Helper.Ready else Helper.Cancelled)
                    && Matches(helper[j], child[j].phase)
        invariant any <==> exists j: nat :: j < i && helper[j].Ready?
        invariant every <==> forall j: nat :: j < i ==> helper[j].Ready?
      {
        var ans := MustResume(i, i in answers);
        any, every := any || ans, every && ans;
        i := i + 1;
      }
      must := if all then every else any;
      self := self.MustResumeReturned(must);
    }

    /** MuxHelper::reportImmediateResult() */
    method ReportImmediate(i: nat)
      requires Inv(Now()) && immediate && i < n && i < |helper| == |child| && !helper[i].Succeeded? && !helper[i].Failed?
      modifies this
      ensures Inv(Now()) && Evolved(old(Now()).(doubled := doubled), Now())
      ensures Gathers(old(Now()), i, Now())
    {
      hide Inv, Evolved;
      ghost var s0 := Now();
      InvFacts(s0);
      EvolvedSelf(s0);
      if helper[i].CancellationPending? {
        var answer: bool := *;
        SettledAtHand(s0, i, answer);
        var _ := MustResume(i, answer);
        assert Now() == SetChild(s0, i, helper[i], child[i]);
      }
      ghost var s1 := Now();
      ReportSettled(i);
      DoubledAside(s0, s1, Now());
    }

    /** The rest of it, when the child's outcome does not depend on await_must_resume() any more. */
    method ReportSettled(i: nat)
      requires Inv(Now()) && immediate && i < n && i < |helper| == |child|
      requires helper[i].NotStarted? || helper[i].Ready? || helper[i].Cancelled?
      modifies this
      ensures Inv(Now()) && Evolved(old(Now()).(doubled := doubled), Now())
      ensures Gathers(old(Now()), i, Now())
    {
      hide Inv, Evolved, Reporting, Reported, ResultDue, Justified, TotalRank, AllLater, SweepSeen, Gathers, Calm, OnlySwept;
      ghost var s0 := Now();
      InvFacts(s0);
      if helper[i].Cancelled? {
        CountAtHand(s0, i);
        Invoke(i, false);
        ReportedFacts(s0, i, Now());
        DoubledSame(s0, Now(), i);
        GathersCancelled(s0, i, Now());
      } else {
        var answer: bool := *;
        var ready := AskReady(i, answer);
        AskedAtHand(s0, Now(), i);
        ghost var s1 := Now();
        if ready {
          var failed: bool := *;
          DueAtHand(s1, i);
          ghost var c := child[i].Resumed();
          ReportResult(i, child[i].Resumed(), failed);
          GathersAnswer(s0, i, s1, c, Now());
        } else {
          var cancelled := Cancel(i);
          assert cancelled;
          EvolvedFacts(s1, Now());
          GathersNothing(s0, i, s1, Now());
        }
        EvolvedTrans(s0, s1, Now());
      }
    }

    /** await_resume() without await_suspend(): results are collected in order, except that a child that is
        ready goes first, since reporting it may cancel the others: the first that was ready, or one before it
        that is ready by now.  Every child comes to its end; the error is that of the first to fail in this
        order; and without one at least one child has a value and, if all are needed and had one to give, all
        have. */
    method AwaitResume() returns (ghost first: nat)
      requires AtOnce(Now()) && self.MayResume()
      modifies this
      ensures Inv(Now()) && immediate && |helper| == |child| == n && self == old(self).Resumed()
      ensures forall i: nat :: i < n ==> helper[i].Final() && child[i].MayDestroy()
      ensures first < n && (helper[first].Succeeded? || helper[first].Failed?)
      ensures forall k: nat :: k < n && old(k < |helper| && k < |child| && IsAtHand(helper[k], child[k])) ==> first <= k
      ensures error.Some? <==> SomeFailed(helper)
      ensures error.Some? ==> FirstFailure(helper, first, error.value)
      ensures error.None? ==> exists i: nat :: i < n && helper[i].Succeeded?
      ensures error.None? && minReady == n && old(AllAtHand(Now())) ==> forall i: nat :: i < n ==> helper[i].Succeeded?
    {
      ghost var whole := minReady == n && AllAtHand(Now());
      StartsAtOnce(Now());
      self, muted, immediate := self.Resumed(), true, true;
      var r := FirstReady(whole);
      hide Inv, Evolved, Collecting, Gathers, AllAtHand, AtOnce, FirstFailure;
      Collect(r, whole);
      first := r;
    }

    /** The results of all children, that of r first. */
    method Collect(r: nat, ghost whole: bool)
      requires Inv(Now()) && immediate && r < n == |helper| == |child| && IsAtHand(helper[r], child[r]) && error.None?
      requires forall i: nat :: i < n ==> helper[i].NotStarted? || helper[i].Ready? || helper[i].Cancelled?
      requires whole ==> minReady == n && AllAtHand(Now())
      modifies this
      ensures Inv(Now()) && immediate && |helper| == |child| == n && self == old(self)
      ensures forall i: nat :: i < n ==> helper[i].Final() && child[i].MayDestroy()
      ensures helper[r].Succeeded? || helper[r].Failed?
      ensures (error.Some? <==> SomeFailed(helper)) && (error.Some? ==> FirstFailure(helper, r, error.value))
      ensures error.None? ==> exists i: nat :: i < n && helper[i].Succeeded?
      ensures error.None? && whole ==> forall i: nat :: i < n ==> helper[i].Succeeded?
    {
      hide Inv, Evolved, Collecting, Gathers, AllAtHand, FirstFailure;
      CollectFirst(Now(), r, whole);
      ghost var s0 := Now();
      ReportImmediate(r);
      CollectedFirst(s0, r, whole, Now());
      CollectRest(r, whole);
      CollectedAll(Now(), r, whole);
    }

    /** The results of the other children. */
    method CollectRest(r: nat, ghost whole: bool)
      requires Inv(Now()) && immediate && Collecting(Now(), r, 0, whole)
      modifies this
      ensures Inv(Now()) && immediate && self == old(self) && Collecting(Now(), r, n, whole)
    {
      hide Inv, Evolved, Collecting, Gathers;
      var i := 0;
      while i < n
        invariant Inv(Now()) && immediate && i <= n && self == old(self)
        invariant Collecting(Now(), r, i, whole)
      {
        ghost var s1 := Now();
        if i != r {
          CollectNext(s1, r, i, whole);
          ReportImmediate(i);
        }
        Collected(s1, r, i, whole, Now());
        i := i + 1;
      }
    }

    /** Any run of a new combiner, driven by the awaiter protocol: it may be cancelled before it is
        suspended, in any order with await_ready() and await_set_executor(), or, by the environment,
        afterwards.  If it is suspended and no child was counted twice, then the parent has been resumed or
        told of the cancellation exactly if every child has finished, and the rest have been asked to cancel
        as soon as enough children have finished or one has failed.  If it need not be suspended, then every
        child has come to its end, or a cancelled allOf leaves results behind. */
    method AnyRun(all: bool) returns (how: Outcome)
      requires Fresh(Now()) && KeepsWord() && !early && self == Checker(Initial, false) && (all ==> minReady == n)
      requires forall i: nat :: i < n ==> child[i] == Checker(Initial, false)
      modifies this
      ensures Ended(Now(), how, all)
    {
      var first, executorFirst, cancel: bool := *, *, *;
      var answers: set<nat> := *;
      if first {
        var everybody := AwaitEarlyCancel();
        if everybody { return CancelledAtOnce; }
      }
      var ready := AwaitReady(answers);
      if ready {
        how := AtOnceRun(all, cancel);
        return;
      }
      how := SuspendedRun(all, executorFirst, cancel);
    }

    /** The part of a run that comes after await_ready() has returned false. */
    method SuspendedRun(all: bool, executorFirst: bool, cancel: bool) returns (how: Outcome)
      requires Fresh(Now()) && KeepsWord() && (self.phase.NotReady? || self.phase.CancelPending?)
      requires forall i: nat :: i < n && helper[i].CancellationPending? ==> !child[i].phase.ReadyAfterCancel?
      modifies this
      ensures Ended(Now(), how, all)
    {
      hide Enough, Inv;
      if executorFirst {
        var accepted := AwaitSetExecutor();
        assert accepted;
      }
      if cancel && !early {
        var everybody := AwaitEarlyCancel();
        if everybody { return CancelledAtOnce; }
      }
      if !executorFirst {
        var accepted := AwaitSetExecutor();
        if !accepted { return Rejected; }
      }
      RunSuspended();
      how := Suspended;
    }

    /** The part of a run that comes after await_ready() has returned true. */
    method AtOnceRun(all: bool, cancel: bool) returns (how: Outcome)
      requires Fresh(Now()) && KeepsWord() && !early && self.phase.ReadyImmediately? && (all ==> minReady == n)
      modifies this
      ensures Ended(Now(), how, all)
    {
      if cancel {
        var answers: set<nat> := *;
        var cancelled := CancelReady(all, answers);
        if cancelled { return CancelledAtOnce; }
      } else {
        ReadyAtOnce(Now(), skippable);
      }
      hide Fresh, Enough, Inv, AtOnce, AllAtHand;
      ghost var _ := AwaitResume();
      how := ResumedAtOnce;
    }

    /** An early cancellation after await_ready() has returned true.  It goes through exactly if every child
        accepts it or need not resume, or, for allOf, if one of them does; and then every child may be
        destroyed exactly if all of them did, which anyOf and mostOf always see to. */
    method CancelReady(all: bool, answers: set<nat>) returns (cancelled: bool)
      requires Fresh(Now()) && KeepsWord() && !early && self.phase.ReadyImmediately?
      modifies this`helper, this`child, this`self, this`early
      ensures cancelled <==> if all then exists i: nat :: i < n && (skips[i] || i !in answers)
                             else forall i: nat :: i < n ==> skips[i] || i !in answers
      ensures |helper| == |child| == n
      ensures forall i: nat :: i < n ==> helper[i] == if skips[i] || i !in answers then Helper.Cancelled else Helper.Ready
      ensures cancelled ==> ((forall i: nat :: i < n ==> child[i].MayDestroy()) <==> forall i: nat :: i < n ==> skips[i] || i !in answers)
      ensures cancelled ==> Ended(Now(), CancelledAtOnce, all)
      ensures !cancelled ==> AtOnce(Now()) && self.MayResume() && (all ==> AllAtHand(Now()))
    {
      hide Enough, AtOnce, AllAtHand, Ended;
      cancelled := AwaitEarlyCancel();
      assert cancelled ==> skips[0];
      if !cancelled {
        var must := AwaitMustResume(all, answers);
        cancelled := !must;
        if must {
          MustAtOnce(Now());
        }
      }
      if cancelled { LeftReady(Now(), all, answers); }
    }

    method RunSuspended()
      requires Fresh(Now()) && self.MaySuspend()
      requires forall i: nat :: i < n && !helper[i].Cancelled? ==> child[i].hasExecutor
      modifies this
      ensures Inv(Now()) && Released(Now())
    {
      hide Fresh, Inv, Evolved;
      AwaitSuspend();
      ghost var s := Now();
      Environment();
      EvolvedFacts(s, Now());
      InvFacts(Now());
      if doubled == {} {
        CountExact(Now());
        ResumedExactlyWhenDone(Now());
        if |FinishedChildren(Now())| >= minReady || SomeFailed(helper) {
          RestIsCancelled(Now());
        }
      }
    }
  }

  // ----- suspending, on states

  /** Child k has been suspended on the way from s to s'. */
  ghost predicate Suspends(s: State, k: nat, s': State) {
    match s'.self
    case Checker(_, _) =>
      && s'.suspended == k + 1 && s'.n == s.n && s'.skips == s.skips
      && s'.frames == s.frames && s'.muted == s.muted && s'.early == s.early
      && s'.doubled == s.doubled + (if !s.early && k < |s.helper| && s.helper[k].Cancelled? then {k} else {})
      && |s'.helper| == |s.helper|
      && (|| (s'.sweptAt == s.sweptAt && forall j: nat :: k < j < |s.helper| && s.helper[j].NotStarted? ==> s'.helper[j].NotStarted?)
          || (s'.sweptAt == Earlier(s.sweptAt, k + 1) && forall j: nat :: k < j < |s.helper| ==> !s'.helper[j].NotStarted?))
      && (forall j: nat :: k < j < |s.helper| && !s.helper[j].NotStarted? ==> !s'.helper[j].NotStarted?)
      && (forall j: nat :: j < |s.helper| && s.helper[j].Final() ==> s'.helper[j] == s.helper[j])
      && (k < |s.helper| && k < |s.child| && IsReady(s.helper[k], s.child[k]) ==> s'.helper[k].Final())
  }

  lemma SuspendsFacts(s: State, k: nat, s': State)
    requires Suspends(s, k, s')
    ensures s'.suspended == k + 1 && s'.n == s.n && s'.skips == s.skips
    ensures s'.frames == s.frames && s'.muted == s.muted && s'.early == s.early
    ensures s'.doubled == s.doubled + (if !s.early && k < |s.helper| && s.helper[k].Cancelled? then {k} else {})
    ensures |s'.helper| == |s.helper|
    ensures || (s'.sweptAt == s.sweptAt && forall j: nat :: k < j < |s.helper| && s.helper[j].NotStarted? ==> s'.helper[j].NotStarted?)
            || (s'.sweptAt == Earlier(s.sweptAt, k + 1) && forall j: nat :: k < j < |s.helper| ==> !s'.helper[j].NotStarted?)
    ensures forall j: nat :: k < j < |s.helper| && !s.helper[j].NotStarted? ==> !s'.helper[j].NotStarted?
    ensures forall j: nat :: j < |s.helper| && s.helper[j].Final() ==> s'.helper[j] == s.helper[j]
    ensures k < |s.helper| && k < |s.child| && IsReady(s.helper[k], s.child[k]) ==> s'.helper[k].Final()
  {}

  /** No child after the first accepts an early cancellation. */
  predicate NobodySkips(skips: seq<bool>) {
    forall i: nat :: 1 <= i < |skips| ==> !skips[i]
  }

  /** Children from a up to b that accept an early cancellation. */
  function Skipping(skips: seq<bool>, a: nat, b: nat): set<nat> {
    set j: nat | a <= j < b && j < |skips| && skips[j]
  }

  /** When suspend() reaches child k, it is already cancelled exactly if a sweep came first and the
      child accepted. */
  lemma DoubledStep(s: State, k: nat, sweepAt: nat)
    requires Inv(s) && k == s.suspended < s.n && !s.early && !s.muted
    requires sweepAt < s.n ==> sweepAt <= k && !s.helper[k].NotStarted?
    requires sweepAt >= s.n ==> s.helper[k].NotStarted?
    requires sweepAt <= s.n
    ensures s.helper[k].Cancelled? <==> sweepAt <= k && s.skips[k]
    ensures Skipping(s.skips, sweepAt, k + 1) == Skipping(s.skips, sweepAt, k) + if s.helper[k].Cancelled? then {k} else {}
    ensures Skipping(s.skips, s.n, k + 1) == Skipping(s.skips, k + 1, k + 1) == {}
  {
    assert Waiting(s.helper[k], s.child[k], s.skips[k], s.early);
    hide Inv;
    SkippingStep(s.skips, sweepAt, k);
    SkippingStep(s.skips, s.n, k);
  }

  lemma SkippingStep(skips: seq<bool>, a: nat, k: nat)
    requires k < |skips|
    ensures Skipping(skips, a, k + 1) == Skipping(skips, a, k) + if a <= k && skips[k] then {k} else {}
    ensures Skipping(skips, k + 1, k + 1) == {} && (k < a ==> Skipping(skips, a, k + 1) == {})
  {}

  /** In the middle of await_suspend(). */
  ghost predicate MidSuspend(s: State) {
    match s.self
    case Checker(_, _) =>
      && Inv(s) && s.frames == 0 && !s.muted && 1 <= s.sweptAt <= s.n
      && s.doubled == (if s.early then {} else Skipping(s.skips, s.sweptAt, s.suspended))
      && (!s.early && s.sweptAt == s.n ==> forall j: nat :: s.suspended <= j < s.n ==> s.helper[j].NotStarted?)
      && (!s.early && s.sweptAt < s.n ==>
            s.sweptAt <= s.suspended && forall j: nat :: s.suspended <= j < s.n ==> !s.helper[j].NotStarted?)
  }

  lemma MidStart(s: State)
    requires Fresh(s) && s.self.MaySuspend() && Inv(s.(self := s.self.Suspended()))
    ensures MidSuspend(s.(self := s.self.Suspended()))
  {
    assert Skipping(s.skips, s.n, 0) == {};
  }

  lemma MidFacts(s: State)
    requires MidSuspend(s)
    ensures Inv(s) && s.frames == 0 && !s.muted && 1 <= s.sweptAt <= s.n
    ensures s.doubled == if s.early then {} else Skipping(s.skips, s.sweptAt, s.suspended)
  {}

  lemma MidStep(s: State, k: nat, s': State)
    requires MidSuspend(s) && k == s.suspended < s.n && Inv(s') && Suspends(s, k, s')
    ensures MidSuspend(s')
  {
    InvFacts(s);
    InvFacts(s');
    if !s.early {
      DoubledStep(s, k, s.sweptAt);
    }
  }

  lemma MidNotStarted(s: State)
    requires MidSuspend(s) && !s.early && s.sweptAt == s.n
    ensures |s.helper| == s.n && forall j: nat :: s.suspended <= j < s.n ==> s.helper[j].NotStarted?
  {
    InvFacts(s);
  }

  /** A first failure asks everybody, and that is on record. */
  lemma FailureSweeps(s0: State, s1: State, s: State)
    requires MidSuspend(s0) && !s0.early && s0.sweptAt == s0.n >= 2 && s0.suspended == 0
    requires Suspends(s0, 0, s) && MidSuspend(s) && s.n == s0.n && |s.helper| == s.n && s.helper[0].Failed?
    ensures s.sweptAt == 1
  {
    MidNotStarted(s0);
    assert SomeFailed(s.helper) && s.HasError() && AllAsked(s.helper);
    assert s0.helper[1].NotStarted? && !s.helper[1].NotStarted?;
  }

  lemma BindInv(s: State)
    requires Fresh(s) && s.self.MaySuspend()
    requires forall i: nat :: i < s.n && !s.helper[i].Cancelled? ==> s.child[i].hasExecutor
    ensures Inv(s.(self := s.self.Suspended()))
  {
    var s' := s.(self := s.self.Suspended());
    assert s.early <==> s'.self.phase.Cancelling?;
    assert forall i: nat :: !Counts(s', i);
  }

  lemma ReachCancelled(s: State, k: nat)
    requires Inv(s) && k == s.suspended < s.n && !s.muted && s.frames == 0 && s.helper[k].Cancelled?
    ensures Reporting(s.(suspended := k + 1), k, false)
    ensures k in s.reported <==> !s.early
  {
    var s' := s.(suspended := k + 1);
    assert Counts(s', k) && (Counts(s, k) <==> !s.early);
    assert forall j: nat :: j != k ==> (Counts(s', j) <==> Counts(s, j));
  }

  lemma AgainSuspends(s: State, k: nat, s': State)
    requires k < |s.helper| && s.helper[k].Cancelled? && (k in s.reported <==> !s.early)
    requires Reported(s.(suspended := k + 1), k, s')
    ensures Suspends(s, k, s')
  {
    assert AllLater(s.helper, s'.helper);
    forall j: nat | j < |s.helper| && s.helper[j].Final() ensures s'.helper[j] == s.helper[j] {
      assert Later(s.helper[j], s'.helper[j]);
    }
    forall j: nat | k < j < |s.helper| && !s.helper[j].NotStarted? ensures !s'.helper[j].NotStarted? {
      assert Later(s.helper[j], s'.helper[j]);
    }
  }

  lemma KickOffFacts(s: State, k: nat)
    requires Inv(s) && k == s.suspended < s.n && !s.muted && !s.helper[k].Cancelled?
    ensures s.helper[k].NotStarted? || s.helper[k].CancellationPending?
    ensures Matches(s.helper[k], s.child[k].phase) && s.child[k].hasExecutor && !s.immediate
  {
    assert Waiting(s.helper[k], s.child[k], s.skips[k], s.early);
  }

  lemma KickOffInv(s: State, k: nat, h: Helper, c: Checker)
    requires Inv(s) && k == s.suspended < s.n && !s.muted && !s.helper[k].Cancelled?
    requires h == if s.helper[k].CancellationPending? then Helper.Cancelling else Helper.Running
    ensures var s' := SetChild(s, k, h, c).(suspended := k + 1);
            && Shape(s', k) && Settled(s', -1) && Counted(s') && Fired(s') && !s'.immediate
            && (Matches(h, c.phase) ==> Inv(s'))
  {
    KickOffFacts(s, k);
    KickOffShape(s, k, h, c);
    KickOffSettled(s, k, h, c);
    KickOffCounts(s, k, h, c);
    hide Shape, Settled, Counted, Fired;
  }

  lemma KickOffCounts(s: State, k: nat, h: Helper, c: Checker)
    requires Inv(s) && k == s.suspended < s.n && !s.muted && !s.helper[k].Cancelled?
    requires h == if s.helper[k].CancellationPending? then Helper.Cancelling else Helper.Running
    ensures var s' := SetChild(s, k, h, c).(suspended := k + 1); Counted(s') && Fired(s')
  {
    var s' := SetChild(s, k, h, c).(suspended := k + 1);
    KickOffFacts(s, k);
    KeepsAnswer(s.helper, k, h);
    if i: nat :| i < |s'.helper| && (s'.helper[i].Cancelling? || s'.helper[i].Cancelled? || s'.helper[i].CancellationPending?) {
      assert s.helper[i].Cancelling? || s.helper[i].Cancelled? || s.helper[i].CancellationPending?;
    }
    hide Shape, Settled;
  }

  lemma KickOffSettled(s: State, k: nat, h: Helper, c: Checker)
    requires Inv(s) && k == s.suspended < s.n && !s.muted && !s.helper[k].Cancelled?
    requires h == if s.helper[k].CancellationPending? then Helper.Cancelling else Helper.Running
    ensures Settled(SetChild(s, k, h, c).(suspended := k + 1), -1)
  {
    var s' := SetChild(s, k, h, c).(suspended := k + 1);
    KickOffFacts(s, k);
    FirstKeptAside(s, k, h);
    hide FirstKept, Counted, Fired;
    assert forall j: nat :: Counts(s', j) <==> Counts(s, j);
  }

  lemma KickOffShape(s: State, k: nat, h: Helper, c: Checker)
    requires Inv(s) && k == s.suspended < s.n && !s.muted && !s.helper[k].Cancelled?
    requires h == if s.helper[k].CancellationPending? then Helper.Cancelling else Helper.Running
    ensures var s' := SetChild(s, k, h, c).(suspended := k + 1);
            Shape(s', k) && (Matches(h, c.phase) ==> Shape(s', -1))
  {
    KickOffFacts(s, k);
    assert Waiting(s.helper[k], s.child[k], s.skips[k], s.early);
  }

  lemma KickOffSuspends(s: State, k: nat, h: Helper, c: Checker, s1: State, s': State)
    requires k < |s.helper| == |s.child| && !s.helper[k].Final() && !h.NotStarted?
    requires s1 == SetChild(s, k, h, c).(suspended := k + 1)
    requires Evolved(s1, s') && SweepSeen(s1, s')
    requires IsReady(s.helper[k], s.child[k]) ==> k < |s'.helper| && s'.helper[k].Final()
    ensures Suspends(s, k, s')
  {
    forall j: nat | j < |s.helper| && s.helper[j].Final() ensures s'.helper[j] == s.helper[j] {
      assert Later(s1.helper[j], s'.helper[j]);
    }
    forall j: nat | k < j < |s.helper| && !s.helper[j].NotStarted? ensures !s'.helper[j].NotStarted? {
      assert Later(s1.helper[j], s'.helper[j]);
    }
  }

  // ----- what the combiner guarantees

  function FinishedChildren(s: State): set<nat> {
    set i: nat | i < |s.helper| && s.helper[i].Final()
  }

  /** Once everybody is suspended, the count is the number of finished children less the number of
      open cancellation frames, exactly if no child was counted twice. */
  lemma CountExact(s: State)
    requires Inv(s) && s.suspended == s.n
    ensures s.count == |FinishedChildren(s)| - s.frames <==> s.doubled == {}
  {
    assert forall i: nat :: Counts(s, i) <==> i in FinishedChildren(s);
    assert s.reported == FinishedChildren(s);
  }

  /** The parent has been resumed, or told that the combiner is cancelled, exactly if every child has
      finished and no cancellation is on the stack that would still touch the combiner. */
  lemma ResumedExactlyWhenDone(s: State)
    requires Inv(s) && s.suspended == s.n && s.doubled == {} && !s.muted
    ensures !s.self.Pending() <==> s.frames == 0 && forall i: nat :: i < s.n ==> s.helper[i].Final()
  {
    RangeCard(s.reported, s.n);
    FullRange(s.reported, s.n);
    assert forall i: nat :: i < s.n ==> (Counts(s, i) <==> s.helper[i].Final());
    if s.count >= s.n {
      forall i: nat | i < s.n ensures s.helper[i].Final() {
        assert Counts(s, i);
      }
    }
  }

  /** As soon as enough children have reported, or one has failed, all others have been asked to
      cancel by the time control leaves the combiner. */
  lemma RestIsCancelled(s: State)
    requires Inv(s) && s.frames == 0 && !s.muted
    requires (s.suspended == s.n && |FinishedChildren(s)| >= s.minReady) || SomeFailed(s.helper)
    ensures AllAsked(s.helper)
  {
    if !SomeFailed(s.helper) {
      assert forall i: nat :: Counts(s, i) <==> i in FinishedChildren(s);
      assert s.reported == FinishedChildren(s);
    }
  }

  /** The error that is kept is that of the child counted with one first, whatever happens later, and the
      children so counted are those that failed. */
  lemma FirstErrorKept(s: State, s': State)
    requires Inv(s) && Inv(s') && Evolved(s, s')
    ensures s.error.Some? ==> s'.error == s.error
    ensures s'.error == if s'.failures == [] then None else Some(s'.failures[0])
    ensures s.failures <= s'.failures && forall i: nat :: i < |s'.helper| ==> (i in s'.failures <==> s'.helper[i].Failed?)
  {
    hide Shape, Counted, Fired;
  }

  predicate ChildMustResume(h: Helper) { h.Succeeded? || h.Failed? }

  /** await_must_resume() of anyOf and mostOf, once everybody has finished. */
  ghost predicate AnyMustResume(s: State) {
    exists i: nat :: i < |s.helper| && ChildMustResume(s.helper[i])
  }

  /** await_must_resume() of allOf. */
  ghost predicate AllMustResume(s: State) {
    s.HasError() || forall i: nat :: i < |s.helper| ==> ChildMustResume(s.helper[i])
  }

  /** Whenever await_resume() of anyOf or mostOf is due and there is no error to throw, every child
      has a value or none (never an error); and at least one has a value. */
  lemma OptionalsDefined(s: State)
    requires Inv(s) && s.suspended == s.n && s.doubled == {} && !s.muted && !s.HasError()
    requires s.self.phase.Ready? || (s.self.phase.ReadyAfterCancel? && AnyMustResume(s))
    ensures forall i: nat :: i < s.n ==> s.helper[i].Succeeded? || s.helper[i].Cancelled?
    ensures exists i: nat :: i < s.n && s.helper[i].Succeeded?
  {
    ResumedExactlyWhenDone(s);
    assert forall i: nat :: i < s.n ==> s.helper[i].Final();
    if s.helper[0].Cancelled? && s.self.phase.Ready? {
      assert Swept(s.helper);
      var i: nat :| i < |s.helper| && (s.helper[i].Succeeded? || s.helper[i].Failed?);
      assert s.helper[i].Succeeded?;
    } else if s.self.phase.Ready? {
      assert s.helper[0].Succeeded?;
    } else {
      var i: nat :| i < |s.helper| && ChildMustResume(s.helper[i]);
      assert s.helper[i].Succeeded?;
    }
  }

  /** Whenever await_resume() of allOf is due and there is no error to throw, every child has a value. */
  lemma ValuesDefined(s: State)
    requires Inv(s) && s.suspended == s.n && s.doubled == {} && !s.muted && !s.HasError() && s.minReady == s.n
    requires s.self.phase.Ready? || (s.self.phase.ReadyAfterCancel? && AllMustResume(s))
    ensures forall i: nat :: i < s.n ==> s.helper[i].Succeeded?
  {
    ResumedExactlyWhenDone(s);
    forall i: nat | i < s.n ensures s.helper[i].Succeeded? {
      assert s.helper[i].Final();
      if s.self.phase.Ready? {
        assert s.helper[i].Cancelled? ==> Swept(s.helper);
      } else {
        assert ChildMustResume(s.helper[i]);
      }
    }
  }

  /** A cancellation that anyOf or mostOf passes on drops no result: every child is cancelled. */
  lemma NothingDropped(s: State)
    requires Inv(s) && s.suspended == s.n && s.doubled == {} && !s.muted
    requires s.self.phase.ReadyAfterCancel? && !AnyMustResume(s)
    ensures forall i: nat :: i < s.n ==> s.helper[i].Cancelled?
  {
    ResumedExactlyWhenDone(s);
    forall i: nat | i < s.n ensures s.helper[i].Cancelled? {
      assert s.helper[i].Final() && !ChildMustResume(s.helper[i]);
    }
  }

  /** The other half: without an early cancellation, and with any child after the first that accepts one,
      there is a run in which that child is counted twice. */
  method CountsTwice(m: Mux, j: nat)
    requires Fresh(m.Now()) && !m.early && m.self.MaySuspend() && 1 <= j < m.n && m.skips[j]
    requires forall i: nat :: i < m.n ==> m.child[i].hasExecutor
    modifies m
    ensures Inv(m.Now()) && m.suspended == m.n && j in m.doubled
    ensures m.count != |FinishedChildren(m.Now())| - m.frames
  {
    BindInv(m.Now());
    MidStart(m.Now());
    m.self := m.self.Suspended();
    hide Fresh, Inv, MidSuspend;
    m.FirstFails();
    m.SuspendRest();
    CountExact(m.Now());
  }

  /** allOf leaves a result behind: a child that is ready, refuses an early cancellation and must resume is
      neither asked for its result nor fit to be destroyed once the other child has been cancelled. */
  method ResultLeftBehind() returns (m: Mux)
    ensures fresh(m) && m.self.phase.Cancelled? && |m.helper| == |m.child| == 2
    ensures m.helper[0].Ready? && !m.child[0].MayDestroy() && m.helper[1].Cancelled?
  {
    m := BothReady();
    hide Fresh;
    var cancelled := m.CancelReady(true, {0});
    assert m.skips[1];
  }

  /** Two children that are ready, one of which refuses an early cancellation. */
  method BothReady() returns (m: Mux)
    ensures fresh(m) && Fresh(m.Now()) && m.KeepsWord() && !m.early && m.self.phase.ReadyImmediately?
    ensures m.n == 2 && m.skips == [false, true]
  {
    m := new Mux(2, [false, true], [false, true], false);
    var ready := m.AwaitReady({0, 1});
    AllCounted(m.helper, m.child, 2);
  }

  /** An anyOf whose children all confirm cancellations on the spot need not do so itself: while one child has
      succeeded, another that refused an early cancellation is still being cancelled. */
  method RefusesToAbort() returns (m: Mux, confirmed: bool)
    ensures fresh(m) && m.prompt && m.minReady == 1 && !confirmed
    ensures |m.helper| == 2 && m.helper[0].Succeeded? && m.helper[1].Cancelling?
  {
    m := OneIsReady();
    hide Inv, Evolved, Calm;
    ghost var s1 := SetChild(m.Now(), 0, Succeeded, m.child[0].Resumed());
    m.FirstSucceeds();
    SweptPending(s1, m.Now());
    m.SecondWaits();
    confirmed := m.AwaitCancel();
  }

  /** An anyOf over two children that refuse an early cancellation, the first of which is ready. */
  method OneIsReady() returns (m: Mux)
    ensures fresh(m) && Inv(m.Now()) && m.suspended == 0 && !m.muted && m.frames == 0 && m.n == 2 && m.minReady == 1 && m.prompt
    ensures m.self.phase.Running? && |m.helper| == |m.child| == |m.skips| == 2 && m.helper[0].NotStarted? && m.helper[1].NotStarted?
    ensures m.child[0].phase.ReadyImmediately? && m.child[1].phase.NotReady? && !m.skips[1] && !m.early
  {
    m := new Mux(1, [false, false], [false, false], true);
    var ready := m.AwaitReady({0});
    assert !m.skippable[1] && !IsReady(m.helper[1], m.child[1]);
    var accepted := m.AwaitSetExecutor();
    BindInv(m.Now());
    m.self := m.self.Suspended();
  }

  /** The combiner goes back on its readiness: it is ready, refuses an early cancellation because its child
      does, and when it is asked again, as another combiner that contains it will do when it starts it, it
      answers that it is not ready. */
  method NoLongerReady() returns (m: Mux, again: bool)
    ensures fresh(m) && m.self.phase.ReadyAfterCancel? && m.self.MayAskReady()
    ensures !again && !m.self.MayAnswerReady(again)
  {
    m := new Mux(1, [false], [false], false);
    var ready := m.AwaitReady({0});
    AllCounted(m.helper, m.child, 1);
    var _ := m.AwaitEarlyCancel();
    again := m.AwaitReady({});
  }

  /** An executor may be passed on to a child that does not expect one any more: a child was ready, its
      sibling was not, and an early cancellation was refused. */
  method ExecutorTooLate() returns (m: Mux, accepted: bool)
    ensures fresh(m) && m.self.MaySetExecutor() && !accepted
  {
    m := new Mux(2, [false, false], [false, false], false);
    var ready := m.AwaitReady({0});
    assert !m.skippable[1] && !IsReady(m.helper[1], m.child[1]);
    var _ := m.AwaitEarlyCancel();
    assert m.child[0].phase.ReadyAfterCancel?;
    accepted := m.AwaitSetExecutor();
  }

  /** The count can run ahead: an anyOf over a child that is ready, one that accepts an early
      cancellation and one that does not resumes its parent before the third child is even started. */
  method ResumedTooEarly(m: Mux)
    requires Fresh(m.Now()) && !m.early && m.self.MaySuspend()
    requires m.n == 3 && m.minReady == 1 && m.skips[1] && !m.skips[2]
    requires m.child[0].phase.ReadyImmediately?
    requires forall i: nat :: i < 3 ==> m.child[i].hasExecutor
    modifies m
    ensures m.suspended == 2 && |m.helper| == 3
    ensures !m.self.Pending() && m.helper[2].CancellationPending?
  {
    BindInv(m.Now());
    m.self := m.self.Suspended();
    ghost var s0 := m.Now();
    m.SuspendChild(0);
    ghost var s1 := m.Now();
    SuspendsFacts(s0, 0, s1);
    FirstSweeps(s1);
    m.SuspendChild(1);
    SuspendsFacts(s1, 1, m.Now());
    SecondFires(s1, m.Now());
  }

  lemma SweptPending(s1: State, s: State)
    requires Inv(s) && s.n == 2 && s.minReady == 1 && |s.skips| == 2 && !s.skips[1] && !s.early && !s.muted && s.suspended == 1 && s.frames == 0
    requires |s1.helper| == |s1.child| == 2 && s1.helper[1].NotStarted? && s1.child[1].phase.NotReady? && Calm(s1, s)
    requires s.helper[0].Succeeded?
    ensures s.helper[1].CancellationPending? && s.child[1].phase.CancelPending? && s.self == s1.self
  {
    assert Counts(s, 0) && AllAsked(s.helper);
    assert Waiting(s.helper[1], s.child[1], s.skips[1], s.early);
    assert s.reported == {0} && s.doubled == {};
  }

  lemma FirstSweeps(s: State)
    requires Inv(s) && s.n == 3 && s.minReady == 1 && s.skips[1] && !s.skips[2] && !s.early && !s.muted
    requires s.suspended == 1 && s.frames == 0 && s.helper[0].Final()
    ensures s.helper[1].Cancelled? && s.helper[2].CancellationPending? && {0, 1} <= s.reported
  {
    assert Counts(s, 0);
    assert |s.reported - {0}| + 1 == |s.reported|;
    assert AllAsked(s.helper);
    assert Waiting(s.helper[1], s.child[1], s.skips[1], s.early) && Waiting(s.helper[2], s.child[2], s.skips[2], s.early);
    assert Counts(s, 1);
  }

  lemma SecondFires(s: State, s': State)
    requires Inv(s) && s.n == 3 && s.helper[1].Cancelled? && {0, 1} <= s.reported && s.frames == 0 && !s.muted && !s.early
    requires s.helper[2].CancellationPending? && !s.skips[2] && s.suspended == 1 && s.helper[0].Final()
    requires Inv(s') && Suspends(s, 1, s')
    ensures !s'.self.Pending() && s'.helper[2].CancellationPending?
  {
    assert s'.helper[0] == s.helper[0] && s'.helper[1] == s.helper[1];
    assert Counts(s', 0) && Counts(s', 1);
    assert 1 in s'.doubled;
    assert |s'.reported - {0} - {1}| + 2 == |s'.reported|;
    assert |s'.doubled - {1}| + 1 == |s'.doubled|;
    assert Waiting(s'.helper[2], s'.child[2], s'.skips[2], s'.early);
  }

  // ----- what hides behind the predicates

  lemma InvFacts(s: State)
    requires Inv(s)
    ensures |s.helper| == |s.child| == |s.skips| == s.n && s.suspended <= s.n
    ensures forall i: nat :: i < s.n ==> Matches(s.helper[i], s.child[i].phase)
    ensures forall i: nat :: i < s.n && s.helper[i].Running? ==> i < s.suspended
    ensures forall i: nat :: i < s.n && s.helper[i].NotStarted? ==> i >= s.suspended && !s.early && (s.immediate || s.child[i].hasExecutor)
    ensures s.immediate ==> forall i: nat :: i < s.n ==> AtHand(s.helper[i], s.child[i], s.skips[i])
    ensures s.immediate ==> s.muted && s.self.phase.Done?
  {}

  lemma InvParts(s: State, i: nat)
    requires Inv(s)
    ensures !s.immediate ==> Shape(s, i) && Settled(s, -1) && Counted(s) && Fired(s)
  {}

  lemma EvolvedFacts(s: State, s': State)
    requires Evolved(s, s')
    ensures AllLater(s.helper, s'.helper)
    ensures s'.frames == s.frames && s'.muted == s.muted
    ensures s'.n == s.n && |s'.helper| == |s.helper| && Rank(s') <= Rank(s) && s'.suspended == s.suspended
    ensures forall i: nat :: i < |s.helper| ==> Later(s.helper[i], s'.helper[i])
    ensures s'.doubled == s.doubled && s'.early == s.early && s'.minReady == s.minReady
    ensures s'.immediate == s.immediate && (s.HasError() ==> s'.HasError())
    ensures !s.self.Pending() ==> s'.self == s.self
  {}

  /** Child i has been reported on the way from s to s'. */
  ghost predicate Reported(s: State, i: nat, s': State) {
    match s'.self
    case Checker(_, _) =>
      && i in s'.reported
      && SweepSeen(s, s')
      && s.failures + (if i < |s.helper| && s.helper[i].Failed? then [i] else []) <= s'.failures
      && (IsCalm(s) ==> Calm(s, s'))
      && (s.minReady == s.n && !s'.HasError() ==> s'.helper == s.helper && s'.child == s.child)
      && Evolved(s.(doubled := if i in s.reported then s.doubled + {i} else s.doubled), s')
  }

  lemma ReportedFacts(s: State, i: nat, s': State)
    requires Reported(s, i, s') && i < |s.helper| && s.helper[i].Final()
    ensures i !in s.reported ==> Evolved(s, s')
    ensures i in s.reported ==> Evolved(s.(doubled := s.doubled + {i}), s')
    ensures |s'.helper| == |s.helper| && s'.helper[i] == s.helper[i]
    ensures SweepSeen(s, s')
    ensures IsCalm(s) ==> Calm(s, s') && OnlySwept(s.helper, s'.helper)
    ensures s.minReady == s.n && !s'.HasError() ==> s'.helper == s.helper && s'.child == s.child
  {
    assert Later(s.helper[i], s'.helper[i]);
  }

  lemma ReportingFacts(s: State, i: nat, failed: bool)
    requires Reporting(s, i, failed)
    ensures i < |s.helper| == |s.child| && (failed <==> s.helper[i].Failed?)
  {
    hide Settled, Counted, Fired;
  }

  lemma TallyReports(s: State, i: nat, failed: bool)
    requires Reporting(s, i, failed)
    ensures i < |s.helper| && (failed <==> s.helper[i].Failed?)
    ensures var s' := Tally(s, i, failed);
            && Reported(s, i, s')
            && (s'.muted || s'.self.Pending() ==> Reported(s, i, ResumeParent(s')))
  {
    ReportingFacts(s, i, failed);
    var t := Tally(s, i, failed);
    hide Reporting, Reported;
    ReportsAtOnce(s, i, t);
    if t.muted || t.self.Pending() { ReportsAtOnce(s, i, ResumeParent(t)); }
  }

  lemma ReportsAtOnce(s: State, i: nat, s': State)
    requires i < |s.helper| == |s.child| && i in s'.reported && s.reported <= s'.reported
    requires s' == s.(self := s'.self, count := s'.count, error := s'.error, failures := s'.failures, reported := s'.reported, doubled := s'.doubled)
    requires s'.doubled == if i in s.reported then s.doubled + {i} else s.doubled
    requires s'.failures == (if s.helper[i].Failed? then s.failures + [i] else s.failures) && (s.HasError() ==> s'.HasError())
    requires s'.self == s.self || (s.self.Pending() && s'.self == s.self.HandleResumed())
    ensures Reported(s, i, s')
  {
    hide TotalRank;
    CalmAtOnce(s, s');
    hide Calm, OnlySwept;
  }

  lemma CalmAtOnce(s: State, s': State)
    requires |s.helper| == |s.child| && s'.helper == s.helper && s'.child == s.child
    requires s'.self == s.self || !s'.self.Pending()
    ensures Calm(s, s')
  {}

  lemma FrameReports(s: State, i: nat, failed: bool, s1: State, s2: State)
    requires s1 == Tally(s, i, failed).(count := s.count, frames := s.frames + 1, sweptAt := Earlier(s.sweptAt, s.suspended)) && Evolved(s1, s2)
    requires forall j: nat :: j < |s2.helper| ==> !s2.helper[j].NotStarted?
    requires IsCalm(s) ==> Calm(s1, s2)
    requires failed || s.minReady != s.n
    requires i < |s.helper| && (failed <==> s.helper[i].Failed?)
    ensures s2.frames > 0
    ensures s2.count + 1 != s2.n || s2.muted || s2.self.Pending() ==> Reported(s, i, LeftFrame(s2))
  {
    hide TotalRank, OnlySwept, AllLater;
  }

  lemma ShapeSizes(s: State, i: nat)
    requires Shape(s, i)
    ensures |s.helper| == |s.child| == |s.skips| == s.n
  {}

  lemma SweptAnswered(s: State, i: nat)
    requires Counted(s) && i < |s.helper| && s.helper[i].Cancelling?
    ensures Uncancelled(s.self) ==> Justified(s)
  {
    assert Swept(s.helper);
  }

  lemma AheadInv(s: State, i: nat)
    requires Inv(s) && i < s.n && s.helper[i].Live()
    ensures s.child[i].Pending() && i < s.suspended && !s.immediate
    ensures var s' := s.(child := s.child[i := s.child[i].HandleResumed()]);
            Shape(s', i) && Settled(s', -1) && Counted(s') && Fired(s')
  {
    var s' := s.(child := s.child[i := s.child[i].HandleResumed()]);
    assert forall j: nat :: Counts(s', j) <==> Counts(s, j);
    assert i < s.suspended;
  }

  lemma AheadEvolves(s: State, i: nat, s': State)
    requires i < |s.child| && s.child[i].Pending()
    requires Evolved(s.(child := s.child[i := s.child[i].HandleResumed()]), s')
    ensures Evolved(s, s')
  {}

  /** What await_cancel() finds when it restores parent_: if everybody is cancelled, nobody is left
      who could resume the parent; otherwise the count tells whether it is still to be resumed. */
  function Unmuted(s: State, all: bool): State
    requires s.self.phase.Cancelling?
  {
    var s3 := s.(muted := false);
    if all then s3.(self := s3.self.CancelConfirmed()) else if s3.count == s3.n then ResumeParent(s3) else s3
  }

  lemma UnmutedInv(s0: State, s1: State, s2: State, all: bool)
    requires Inv(s0) && s0.self.MayCancel()
    requires s1 == s0.(self := s0.self.CancelRequested(), muted := true, sweptAt := Earlier(s0.sweptAt, s0.suspended))
    requires Inv(s2) && Evolved(s1, s2) && (AllAsked(s0.helper) ==> s2 == s1)
    requires AllAsked(s2.helper) && (all ==> forall i: nat :: i < s2.n ==> s2.helper[i].Cancelled?)
    ensures s2.self.phase.Cancelling? && (s0.doubled != {} ==> !all && s2 == s1 && s2.count != s2.n)
    ensures Inv(Unmuted(s2, all)) && Evolved(s0, Unmuted(s2, all)) && SweepSeen(s0, Unmuted(s2, all))
  {
    if s0.doubled != {} { UnmutedDouble(s0, s1, s2, all); } else { UnmutedSingle(s0, s1, s2, all); }
  }

  lemma UnmutedSingle(s0: State, s1: State, s2: State, all: bool)
    requires Inv(s0) && s0.doubled == {} && s0.self.MayCancel()
    requires s1 == s0.(self := s0.self.CancelRequested(), muted := true, sweptAt := Earlier(s0.sweptAt, s0.suspended))
    requires Inv(s2) && Evolved(s1, s2)
    requires AllAsked(s2.helper) && (all ==> forall i: nat :: i < s2.n ==> s2.helper[i].Cancelled?)
    ensures s2.self.phase.Cancelling?
    ensures Inv(Unmuted(s2, all)) && Evolved(s0, Unmuted(s2, all))
  {
    var s3 := s2.(muted := false);
    assert forall j: nat :: Counts(s3, j) <==> Counts(s2, j);
    if all { CancelledMeansCounted(s0, s1, s2); }
    RangeCard(s2.reported, s2.n);
  }

  lemma UnmutedDouble(s0: State, s1: State, s2: State, all: bool)
    requires Inv(s0) && s0.doubled != {} && s0.self.MayCancel()
    requires s1 == s0.(self := s0.self.CancelRequested(), muted := true, sweptAt := Earlier(s0.sweptAt, s0.suspended))
    requires Inv(s2) && (AllAsked(s0.helper) ==> s2 == s1) && (all ==> forall i: nat :: i < s2.n ==> s2.helper[i].Cancelled?)
    ensures s2.self.phase.Cancelling? && !all && s2 == s1 && s2.count != s2.n
    ensures var s3 := s2.(muted := false); Inv(s3) && Evolved(s0, s3)
  {
    var k :| k in s0.doubled;
    assert s0.helper[k].Cancelled? && Swept(s0.helper) && Answered(s0.helper);
    var s3 := s2.(muted := false);
    assert forall j: nat :: Counts(s3, j) <==> Counts(s0, j);
  }

  // ----- results without suspending, on states

  /** The child has an answer to give. */
  predicate IsAtHand(h: Helper, c: Checker) {
    h.Ready? || IsReady(h, c)
  }

  ghost predicate AllAtHand(s: State) {
    forall i: nat :: i < |s.helper| && i < |s.child| ==> IsAtHand(s.helper[i], s.child[i])
  }

  /** await_resume() is due, and await_suspend() has not been called. */
  ghost predicate AtOnce(s: State) {
    && |s.helper| == |s.child| == |s.skips| == s.n && 1 <= s.minReady <= s.n
    && s.suspended == 0 && s.reported == {} && s.error.None? && s.failures == [] && !s.immediate
    && (forall i: nat :: i < s.n ==>
          && AtHand(s.helper[i], s.child[i], s.skips[i])
          && if s.early then s.helper[i].Ready? || s.helper[i].Cancelled? else s.helper[i].NotStarted?)
    && exists i: nat :: i < s.n && IsAtHand(s.helper[i], s.child[i])
  }

  /** The combiner has been suspended, and the parent is released if and when it should be. */
  ghost predicate Released(s: State) {
    && s.suspended == s.n == |s.helper| == |s.child| && s.frames == 0 && !s.muted
    && (s.early ==> s.doubled == {})
    && (s.doubled == {} ==>
          && s.count == |FinishedChildren(s)|
          && (!s.self.Pending() <==> forall i: nat :: i < s.n ==> s.helper[i].Final())
          && (|FinishedChildren(s)| >= s.minReady || SomeFailed(s.helper) ==> AllAsked(s.helper)))
  }

  /** What holds at the end of a run. `all` tells allOf from anyOf and mostOf. */
  ghost predicate Ended(s: State, how: Outcome, all: bool) {
    |s.helper| == |s.child| == s.n &&
    match how
    case Suspended => Inv(s) && Released(s)
    case ResumedAtOnce =>
      && (forall i: nat :: i < s.n ==> s.helper[i].Final() && s.child[i].MayDestroy())
      && (s.HasError() <==> SomeFailed(s.helper))
      && (!s.HasError() ==> exists i: nat :: i < s.n && s.helper[i].Succeeded?)
      && (!s.HasError() && all ==> forall i: nat :: i < s.n ==> s.helper[i].Succeeded?)
    case CancelledAtOnce =>
      && s.self.phase.Cancelled?
      && (forall i: nat :: i < s.n ==>
            if s.helper[i].Cancelled? then s.child[i].MayDestroy() else all && s.helper[i].Ready? && !s.child[i].MayDestroy())
    case Rejected => exists i: nat :: i < s.n && s.child[i].phase.ReadyAfterCancel?
  }

  /** A combiner that is cancelled without having been suspended: its children are cancelled or left ready. */
  lemma LeftReady(s: State, all: bool, answers: set<nat>)
    requires |s.helper| == |s.child| == |s.skips| == s.n && s.self.phase.Cancelled?
    requires forall i: nat :: i < s.n ==> Matches(s.helper[i], s.child[i].phase)
    requires forall i: nat :: i < s.n ==> s.helper[i] == if s.skips[i] || i !in answers then Helper.Cancelled else Helper.Ready
    requires all || forall i: nat :: i < s.n ==> s.skips[i] || i !in answers
    ensures Ended(s, CancelledAtOnce, all)
    ensures (forall i: nat :: i < s.n ==> s.child[i].MayDestroy()) <==> forall i: nat :: i < s.n ==> s.skips[i] || i !in answers
  {
    assert forall i: nat :: i < s.n ==> (s.child[i].MayDestroy() <==> s.helper[i].Cancelled?);
  }

  /** Of the children that failed, e is the first, if child r is looked at before all others. */
  ghost predicate FirstFailure(hs: seq<Helper>, r: nat, e: nat) {
    && e < |hs| && hs[e].Failed?
    && (e == r || (r < |hs| && !hs[r].Failed? && forall j: nat :: j < |hs| && hs[j].Failed? ==> e <= j))
  }

  lemma ReadyAtOnce(s: State, skippable: seq<bool>)
    requires Fresh(s) && !s.early && |skippable| == s.n && forall i: nat :: i < s.n && skippable[i] ==> s.skips[i]
    requires Enough(s.helper, s.child, skippable, s.minReady)
    ensures AtOnce(s) && (s.minReady == s.n ==> AllAtHand(s))
  {
    WhoIsReady(s.helper, s.child, s.n);
  }

  lemma MustAtOnce(s: State)
    requires |s.helper| == |s.child| == |s.skips| == s.n && 1 <= s.minReady <= s.n
    requires s.early && s.suspended == 0 && s.reported == {} && s.error.None? && s.failures == [] && !s.immediate
    requires forall i: nat :: i < s.n ==> Matches(s.helper[i], s.child[i].phase) && (s.helper[i].Ready? || s.helper[i].Cancelled?)
    requires exists i: nat :: i < s.n && s.helper[i].Ready?
    ensures AtOnce(s) && ((forall i: nat :: i < s.n ==> s.helper[i].Ready?) ==> AllAtHand(s))
  {
    var i: nat :| i < s.n && s.helper[i].Ready?;
    assert IsAtHand(s.helper[i], s.child[i]);
  }

  lemma StartsAtOnce(s: State)
    requires AtOnce(s) && s.self.MayResume()
    ensures Inv(s.(self := s.self.Resumed(), muted := true, immediate := true))
  {}

  /** The result of child i has been gathered on the way from s to s'. */
  ghost predicate Gathers(s: State, i: nat, s': State) {
    && s'.self == s.self && s'.immediate
    && i < |s.helper| == |s.child| == |s'.helper| == |s'.child| && s'.helper[i].Final()
    && OnlySwept(s.helper[i := s'.helper[i]], s'.helper)
    && (s.HasError() ==> s'.HasError()) && s.failures <= s'.failures
    && (IsAtHand(s.helper[i], s.child[i]) ==> !s'.helper[i].Cancelled?)
    && (s.minReady == s.n && !s'.HasError() && (!s.helper[i].NotStarted? || IsReady(s.helper[i], s.child[i])) ==>
          forall j: nat :: j < |s.helper| && j != i ==> s'.helper[j] == s.helper[j] && s'.child[j] == s.child[j])
  }

  /** Of those collected, child r came first and the others in order; the error is that of the first to fail. */
  ghost predicate FirstToFail(s: State, r: nat, i: nat) {
    s.error.Some? && s.error.value != r ==>
      && r < |s.helper| && !s.helper[r].Failed? && s.error.value < i
      && forall j: nat :: j < |s.helper| && s.helper[j].Failed? ==> s.error.value <= j
  }

  /** Children before i and child r have been collected; if all had an answer, then the rest still have. */
  ghost predicate Collecting(s: State, r: nat, i: nat, whole: bool) {
    && |s.helper| == |s.child| == s.n && r < s.n && i <= s.n
    && !s.helper[r].Cancelled? && FirstToFail(s, r, i)
    && (forall j: nat :: j < s.n ==> if j < i || j == r then s.helper[j].Final() else !s.helper[j].Succeeded? && !s.helper[j].Failed?)
    && (whole && !s.HasError() ==>
          && s.minReady == s.n
          && forall j: nat :: j < s.n ==> if j < i || j == r then s.helper[j].Succeeded? else IsAtHand(s.helper[j], s.child[j]))
  }

  lemma GathersCancelled(s: State, i: nat, s': State)
    requires Inv(s) && s.immediate && i < |s.helper| && s.helper[i].Cancelled? && Reported(s, i, s') && Inv(s')
    ensures Gathers(s, i, s')
  {}

  lemma GathersAnswer(s: State, i: nat, s1: State, c: Checker, s': State)
    requires Inv(s) && s.immediate && i < |s.helper| && i < |s'.helper| && (s.helper[i].NotStarted? || s.helper[i].Ready?)
    requires s1 == s.(child := s1.child) && |s1.child| == |s.child| && forall j: nat :: j < |s.child| && j != i ==> s1.child[j] == s.child[j]
    requires (s'.helper[i].Succeeded? || s'.helper[i].Failed?) && Reported(SetChild(s1, i, s'.helper[i], c), i, s') && Inv(s')
    ensures Gathers(s, i, s')
  {}

  lemma GathersNothing(s: State, i: nat, s1: State, s': State)
    requires Inv(s) && s.immediate && i < |s.helper| && s.helper[i].NotStarted? && !IsReady(s.helper[i], s.child[i])
    requires s1 == s.(child := s1.child) && |s1.child| == |s.child|
    requires Calm(s1, s') && Evolved(s1, s') && i < |s'.helper| && s'.helper[i].Cancelled? && Inv(s')
    ensures Gathers(s, i, s')
  {}

  lemma CollectFirst(s: State, r: nat, whole: bool)
    requires Inv(s) && s.immediate && r < s.n && IsAtHand(s.helper[r], s.child[r]) && !s.HasError()
    requires whole ==> s.minReady == s.n && AllAtHand(s)
    ensures |s.helper| == |s.child| == s.n && !s.helper[r].Succeeded? && !s.helper[r].Failed?
  {}

  lemma CollectedFirst(s: State, r: nat, whole: bool, s': State)
    requires Inv(s) && s.immediate && r < s.n && IsAtHand(s.helper[r], s.child[r]) && !s.HasError()
    requires forall i: nat :: i < s.n ==> s.helper[i].NotStarted? || s.helper[i].Ready? || s.helper[i].Cancelled?
    requires whole ==> s.minReady == s.n && AllAtHand(s)
    requires Inv(s') && s'.n == s.n && s'.minReady == s.minReady && Gathers(s, r, s')
    ensures Collecting(s', r, 0, whole) && s'.self == s.self && s'.immediate
  {
    if s'.error.Some? {
      var e := s'.error.value;
      assert e in s'.failures && s'.helper[e].Failed?;
      assert e == r;
    }
  }

  lemma CollectNext(s: State, r: nat, i: nat, whole: bool)
    requires Inv(s) && s.immediate && i < s.n && i != r && Collecting(s, r, i, whole)
    ensures |s.helper| == |s.child| == s.n && !s.helper[i].Succeeded? && !s.helper[i].Failed?
  {}

  lemma Collected(s: State, r: nat, i: nat, whole: bool, s': State)
    requires Inv(s) && s.immediate && i < s.n && Collecting(s, r, i, whole)
    requires Inv(s') && s'.n == s.n && s'.minReady == s.minReady
    requires if i == r then s' == s else Gathers(s, i, s')
    ensures Collecting(s', r, i + 1, whole) && s'.self == s.self && s'.immediate
  {
    if i != r {
      forall j: nat | j < s.n && j != i
        ensures s'.helper[j] == s.helper[j] || (s.helper[j].NotStarted? && (s'.helper[j].Cancelled? || s'.helper[j].CancellationPending?))
      {
        assert s.helper[i := s'.helper[i]][j] == s.helper[j];
      }
      FailStep(s, r, i, s');
    }
    hide FirstToFail, FirstKept;
  }

  lemma FailStep(s: State, r: nat, i: nat, s': State)
    requires |s'.helper| == |s.helper| && i < |s.helper| && r < |s.helper| && FirstToFail(s, r, i)
    requires FirstKept(s.error, s.failures, s.helper, -1) && FirstKept(s'.error, s'.failures, s'.helper, -1) && s.failures <= s'.failures
    requires forall j: nat :: j < |s.helper| && j != i && s'.helper[j].Failed? ==> s.helper[j].Failed?
    requires s'.helper[r] == s.helper[r] && i != r
    ensures FirstToFail(s', r, i + 1)
  {
    if s.error.Some? {
      assert s'.error == s.error;
      assert s.error.value in s.failures;
    } else if s'.error.Some? {
      var e := s'.error.value;
      assert e in s'.failures && s'.helper[e].Failed?;
    }
  }

  lemma CollectedAll(s: State, r: nat, whole: bool)
    requires Inv(s) && s.immediate && Collecting(s, r, s.n, whole)
    ensures |s.helper| == |s.child| == s.n
    ensures forall i: nat :: i < s.n ==> s.helper[i].Final() && s.child[i].MayDestroy()
    ensures r < s.n && (s.helper[r].Succeeded? || s.helper[r].Failed?)
    ensures (s.HasError() <==> SomeFailed(s.helper)) && (s.HasError() ==> FirstFailure(s.helper, r, s.error.value))
    ensures !s.HasError() ==> exists i: nat :: i < s.n && s.helper[i].Succeeded?
    ensures !s.HasError() && whole ==> forall i: nat :: i < s.n ==> s.helper[i].Succeeded?
  {
    FirstKeptFacts(s, -1);
    assert s.helper[r].Final();
  }

  lemma SettledAtHand(s: State, i: nat, answer: bool)
    requires Inv(s) && s.immediate && i < s.n && s.helper[i].CancellationPending?
    ensures s.child[i].MayAskMustResume()
    ensures var s' := SetChild(s, i, if answer then Helper.Ready else Helper.Cancelled, s.child[i].MustResumeReturned(answer));
            Inv(s') && Evolved(s, s')
  {
    var h := if answer then Helper.Ready else Helper.Cancelled;
    SetChildEvolves(s, i, h, s.child[i].MustResumeReturned(answer));
    KeepsFailure(s.helper, i, h);
  }

  lemma CountAtHand(s: State, i: nat)
    requires Inv(s) && s.immediate && i < s.n && s.helper[i].Cancelled?
    ensures Reporting(s, i, false)
  {}

  lemma AskedAtHand(s: State, s': State, i: nat)
    requires Inv(s) && s.immediate && i < s.n && s' == s.(child := s'.child) && |s'.child| == s.n
    requires forall j: nat :: j < s.n && j != i ==> s'.child[j] == s.child[j]
    requires Matches(s.helper[i], s'.child[i].phase) && (s.helper[i].Ready? ==> s'.child == s.child)
    requires s.helper[i].NotStarted? || s.helper[i].Ready?
    requires IsReady(s.helper[i], s.child[i]) ==> IsReady(s.helper[i], s'.child[i])
    ensures Inv(s') && Evolved(s, s')
  {}

  ghost predicate MatchingAll(s: State) {
    |s.helper| == |s.child| == s.n && forall i: nat :: i < s.n ==> Matches(s.helper[i], s.child[i].phase) && !s.helper[i].Live()
  }

  lemma MatchesAll(s: State)
    requires Inv(s) && s.immediate
    ensures MatchingAll(s)
  {}

  /** Asking a child whether it is ready keeps the invariant and everybody's answers. */
  lemma LookedAt(s: State, r: nat, answer: bool)
    requires Inv(s) && s.immediate && r < s.n && MatchingAll(s)
    requires s.helper[r].NotStarted? || s.helper[r].Ready? || s.helper[r].Cancelled?
    ensures var s' := s.(child := s.child[r := Asked(s.helper[r], s.child[r], answer)]);
            && Inv(s') && MatchingAll(s') && (AllAtHand(s) ==> AllAtHand(s'))
            && forall i: nat :: i < s.n && IsAtHand(s.helper[i], s.child[i]) ==> IsAtHand(s'.helper[i], s'.child[i])
  {}

  lemma AnswerIsAtHand(h: Helper, c: Checker, found: bool)
    requires h.NotStarted? || h.Ready? || h.Cancelled?
    requires h.NotStarted? || h.Cancelled? ==> (found <==> IsReady(h, c))
    requires h.Ready? ==> found
    ensures found <==> IsAtHand(h, c)
  {}

  lemma DueAtHand(s: State, i: nat)
    requires Inv(s) && s.immediate && i < s.n && (s.helper[i].Ready? || IsReady(s.helper[i], s.child[i]))
    ensures ResultDue(s, i) && s.child[i].MayResume()
  {}

  lemma DoubledAside(s0: State, s1: State, s2: State)
    requires Evolved(s0, s1) && Evolved(s1.(doubled := s2.doubled), s2)
    ensures Evolved(s0.(doubled := s2.doubled), s2)
  {
    EvolvedTrans(s0.(doubled := s2.doubled), s1.(doubled := s2.doubled), s2);
  }

  lemma DoubledSame(s: State, s': State, i: nat)
    requires i !in s.reported ==> Evolved(s, s')
    requires i in s.reported ==> Evolved(s.(doubled := s.doubled + {i}), s')
    ensures Evolved(s.(doubled := s'.doubled), s')
  {}

  lemma EvolvedSelf(s: State)
    ensures Evolved(s, s)
  {}

  lemma EvolvedAnswer(s: State, s': State)
    requires Evolved(s, s')
    ensures Answered(s.helper) ==> Answered(s'.helper)
    ensures Justified(s) ==> Justified(s')
    ensures Uncancelled(s'.self) ==> Uncancelled(s.self)
  {
    if j: nat :| j < |s.helper| && (s.helper[j].Succeeded? || s.helper[j].Failed?) {
      assert Later(s.helper[j], s'.helper[j]);
    }
  }

  lemma MutedInv(s: State)
    requires Inv(s) && s.self.MayCancel()
    ensures Inv(s.(self := s.self.CancelRequested(), muted := true, sweptAt := Earlier(s.sweptAt, s.suspended)))
    ensures !s.early && !s.muted && !s.immediate
  {
    var s' := s.(self := s.self.CancelRequested(), muted := true, sweptAt := Earlier(s.sweptAt, s.suspended));
    assert forall j: nat :: Counts(s', j) <==> Counts(s, j);
  }

  /** If every child turns out to be cancelled then no frame was open, and all have been counted:
      nobody is left who could still resume the parent. */
  lemma CancelledMeansCounted(s0: State, s1: State, s2: State)
    requires Inv(s0) && s0.doubled == {} && s0.self.MayCancel()
    requires s1 == s0.(self := s0.self.CancelRequested(), muted := true, sweptAt := Earlier(s0.sweptAt, s0.suspended))
    requires Inv(s2) && Evolved(s1, s2) && forall i: nat :: i < s2.n ==> s2.helper[i].Cancelled?
    ensures s2.frames == 0 && s2.count == s2.n
  {
    RangeCard(s2.reported, s2.n);
    assert forall i: nat :: i < s2.n ==> Counts(s2, i);
    FullRange(s2.reported, s2.n);
    if s0.frames > 0 {
      var i :| i in s0.reported;
      assert Counts(s0, i);
      assert s0.helper[i].Cancelled? ==> Swept(s0.helper);
      assert Answered(s0.helper);
      EvolvedAnswer(s1, s2);
    }
  }

  // ----- children that confirm cancellations on the spot

  /** Every child that has been started is running or cancelled, and every other one accepts an early
      cancellation. */
  predicate ConfirmAtOnce(hs: seq<Helper>, skips: seq<bool>) {
    forall i: nat :: i < |hs| && i < |skips| ==> hs[i].Running? || hs[i].Cancelled? || (hs[i].NotStarted? && skips[i])
  }

  lemma PromptOutcome(s0: State, s1: State, s2: State)
    requires Inv(s0) && s0.self.MayCancel() && s0.prompt
    requires s1 == s0.(self := s0.self.CancelRequested(), muted := true, sweptAt := Earlier(s0.sweptAt, s0.suspended))
    requires Inv(s2) && Evolved(s1, s2) && Calm(s1, s2) && AllAsked(s2.helper)
    ensures |s2.helper| == s2.n
    ensures (forall i: nat :: i < s2.n ==> s2.helper[i].Cancelled?) <==> ConfirmAtOnce(s0.helper, s0.skips)
  {
    forall i: nat | i < s2.n
      ensures s2.helper[i].Cancelled? <==> s0.helper[i].Running? || s0.helper[i].Cancelled? || (s0.helper[i].NotStarted? && s0.skips[i])
    {
      assert i >= s2.suspended ==> Waiting(s2.helper[i], s2.child[i], s2.skips[i], s2.early);
    }
  }

  /** Nobody has been asked to cancel and is still to finish, and everybody who is still to be started accepts
      an early cancellation. */
  predicate NobodyRefuses(hs: seq<Helper>, skips: seq<bool>) {
    forall i: nat :: i < |hs| && i < |skips| ==> !hs[i].Cancelling? && !hs[i].CancellationPending? && (hs[i].NotStarted? ==> skips[i])
  }

  /** If an anyOf is pending, then a child has finished only if another one is still being cancelled. */
  lemma RefusedExactly(s: State)
    requires Inv(s) && s.self.MayCancel() && s.prompt && s.minReady == 1 && s.frames == 0
    ensures ConfirmAtOnce(s.helper, s.skips) <==> NobodyRefuses(s.helper, s.skips)
  {
    if NobodyRefuses(s.helper, s.skips) && !ConfirmAtOnce(s.helper, s.skips) {
      var i: nat :| i < |s.helper| && !s.helper[i].Running? && !s.helper[i].Cancelled? && !s.helper[i].NotStarted?;
      EverybodyFinished(s, i);
    }
  }

  lemma EverybodyFinished(s: State, i: nat)
    requires Inv(s) && s.minReady == 1 && s.frames == 0 && !s.early && !s.muted && !s.immediate
    requires i < s.n && (s.helper[i].Succeeded? || s.helper[i].Failed?)
    requires forall j: nat :: j < s.n ==> !s.helper[j].Cancelling? && !s.helper[j].CancellationPending?
    ensures !s.self.Pending()
  {
    assert Counts(s, i) && s.count >= 1;
    forall j: nat | j < s.n ensures Counts(s, j) {
      assert j >= s.suspended ==> Waiting(s.helper[j], s.child[j], s.skips[j], s.early);
    }
    FullRange(s.reported, s.n);
  }

  /** Where all children accept early cancellations too, none refuses. */
  lemma NobodyToRefuse(s: State)
    requires Inv(s) && s.self.MayCancel() && s.prompt
    ensures (forall i: nat :: i < s.n && i < |s.skips| ==> s.skips[i]) ==> NobodyRefuses(s.helper, s.skips)
  {
    forall i: nat | i < |s.helper| && i < |s.skips| && s.skips[i] ensures !s.helper[i].Cancelling? && !s.helper[i].CancellationPending? {
      assert i >= s.suspended ==> Waiting(s.helper[i], s.child[i], s.skips[i], s.early);
    }
  }
}
