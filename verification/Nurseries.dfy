/**
 A nursery: the tasks it owns, the starts that have not handed their task over yet, the parent
 that waits for all of them, and the callbacks it has queued on its executor.

 Tasks are numbered.  They, their awaiters and the tasks that call start() are the environment: a
 task that is being cancelled may, before cancel() returns, have tasks end, be started or be handed
 over, report errors, and have the nursery cancelled.  Only queued callbacks do not run meanwhile,
 because the executor is busy; and if the executor of the tasks is busy too, then none of them
 takes a step, so that they end only by confirming that they are cancelled.
 */
module Nurseries {
  import opened Options
  import opened Collections

  datatype Callback = Destroy(t: nat) | ResumeParent

  datatype Outcome =
    | Value
    | CancelOthers      // the body returned `cancel`
    | Error(e: nat)
    | Cancelled         // confirmed by the awaiter of a task that had been cancelled

  predicate QueuedOnce(queue: seq<Callback>) {
    forall i, j :: 0 <= i < j < |queue| ==> queue[i] != queue[j]
  }

  datatype Place =
    | Starting(cancelled: bool)  // held by its start awaiter, which may have been cancelled
    | Handed                     // handed over, and not listed yet
    | In                         // in the nursery
    | Over                       // in the nursery, and reporting its outcome
    | EndedEarly(listed: bool)   // ended while it was being handed over, and is still to be destroyed
    | Finished                   // has left the nursery, and is still to be destroyed
    | Nowhere                    // not started yet, or destroyed
  {
    predicate Live() { In? || Over? }

    /** In tasks_: a task that ended before it was listed is listed all the same. */
    predicate Listed() { In? || Over? || this == EndedEarly(true) }

    predicate InTransit() { Handed? || this == EndedEarly(false) }

    predicate ToDestroy() { Finished? || EndedEarly? }
  }

  datatype Task = Task(place: Place, cancels: nat, confirmed: bool)

  /** What kind of nursery it is, and how tasks are handed over to it: with care, if only by themselves,
      or while the nursery is not being cancelled. */
  datatype Kind = Kind(scoped: bool, careful: bool)

  /** The fields of a nursery, and beside them the bookkeeping that its invariant speaks of. */
  datatype State = State(
    kind: Kind,
    // NurseryBase and BasicNursery
    open: bool,            // executor_ is not null
    cancelling: bool,
    tasks: seq<nat>,
    taskCount: int,
    pending: nat,
    parent: bool,          // parent_ is not null
    error: Option<nat>,
    // the executor
    queue: seq<Callback>,
    batch: seq<nat>,       // what capture() has left to run: tasks to be cancelled
    // what has happened
    info: map<nat, Task>,  // every task there has been
    starting: set<nat>,    // those with a start awaiter
    short: set<nat>,       // those that ended before they were listed
    transit: set<nat>,     // those that are being handed over
    bound: nat,            // parents that have been bound
    opening: bool,         // the parent is bound, and the body is not there yet
    resumes: nat,          // parents that have been resumed
    reports: seq<nat>,     // errors reported
    quiet: nat,            // starts whose task ended without being handed over
    hasty: nat,            // tasks that ended before they were listed
    late: nat,             // starts awaited on a nursery that was closed
    overrun: bool)         // a live task was listed after the nursery had been closed

  ghost predicate ListIs(tasks: seq<nat>, info: map<nat, Task>) {
    Distinct(tasks) && forall t :: t in tasks <==> t in info && info[t].place.Listed()
  }

  ghost predicate StartsAre(starting: set<nat>, info: map<nat, Task>) {
    forall t :: t in starting <==> t in info && info[t].place.Starting?
  }

  ghost predicate ShortAre(short: set<nat>, info: map<nat, Task>) {
    forall t :: t in short <==> t in info && info[t].place.EndedEarly?
  }

  ghost predicate TransitIs(transit: set<nat>, info: map<nat, Task>) {
    forall t :: t in transit <==> t in info && info[t].place.InTransit()
  }

  /** Each task is in one place. taskCount_ is short of the tasks that were counted out before they were
      counted in. */
  ghost predicate OnePlace(s: State) {
    match s.kind
    case Kind(_, _) =>
      && ListIs(s.tasks, s.info) && StartsAre(s.starting, s.info) && ShortAre(s.short, s.info) && TransitIs(s.transit, s.info)
      && s.taskCount == |s.tasks| - |s.short| && s.pending == |s.starting|
  }

  /** What a task's cancel() calls have been, given where it is. */
  predicate CancelOk(task: Task, inBatch: bool, cancelling: bool) {
    match task
    case Task(place, cancels, confirmed) =>
      && cancels <= 1
      && (place.Starting? ==> (place.cancelled <==> cancels == 1) && !inBatch)
      && (place.Handed? || place.EndedEarly? ==> cancels == 1 && cancelling)
      && (place.Live() ==> (cancels == 1 <==> cancelling && !inBatch))
      && (inBatch ==> cancels == 0 && !place.Nowhere?)
      && (confirmed ==> cancels == 1 && (place.ToDestroy() || place.Nowhere?))
  }

  /** At most one cancel() for each task; once the nursery is cancelled, exactly one for each that it
      has, apart from those that it is about to cancel.  Those have a frame. */
  ghost predicate CancelledOnce(s: State) {
    match s.kind
    case Kind(_, _) =>
      && Distinct(s.batch) && (!s.cancelling ==> s.batch == [])
      && (forall t :: t in s.info ==> CancelOk(s.info[t], t in s.batch, s.cancelling))
      && (forall t :: t in s.batch ==> t in s.info)
  }

  /** One parent is resumed, once; its callback is queued last, behind the destruction of every task, and
      when there are no starts. */
  ghost predicate ParentLast(s: State) {
    match s.kind
    case Kind(_, _) =>
      && s.bound <= 1 && (s.bound == 1 && s.open ==> s.parent) && (s.parent ==> s.open && s.bound == 1) && (s.opening ==> s.parent)
      && s.bound == s.resumes + (if ResumeParent in s.queue then 1 else 0) + (if s.parent then 1 else 0)
      && (forall i :: 0 <= i < |s.queue| && s.queue[i].ResumeParent? ==> i == |s.queue| - 1)
      && (s.resumes > 0 ==> s.queue == [])
      && (s.bound == 1 && !s.parent && s.late == 0 ==> s.pending == 0)
      && (s.kind.scoped && s.open ==> s.bound == 1)
  }

  /** A closed nursery has no live task, unless one was listed after it had been closed. */
  ghost predicate ClosedEmpty(s: State) {
    match s.kind
    case Kind(_, _) =>
      && (s.overrun ==> s.cancelling)
      && (forall t :: t in s.info && !s.open ==> !s.info[t].place.Over? && (s.info[t].place.In? ==> s.overrun))
  }

  /** Every task that has left and still has a frame is queued for destruction, once. */
  ghost predicate FramesQueued(s: State) {
    match s.kind
    case Kind(_, _) =>
      && QueuedOnce(s.queue)
      && (forall t :: Destroy(t) in s.queue <==> t in s.info && s.info[t].place.ToDestroy())
  }

  /** The first error reported is kept, and cancels. */
  ghost predicate FirstError(s: State) {
    match s.kind
    case Kind(_, _) =>
      && s.error == (if s.reports == [] then None else Some(s.reports[0]))
      && (s.reports != [] ==> s.cancelling)
  }

  /** With care, no task is ever handed over in a hurry. */
  predicate CareHelps(s: State) {
    match s.kind
    case Kind(_, careful) =>
      && (careful ==> s.transit == {} && !s.overrun && s.hasty == 0)
      && (s.short != {} ==> s.hasty > 0)
  }

  ghost predicate Sound(s: State) {
    match s.kind
    case Kind(_, _) =>
      OnePlace(s) && CancelledOnce(s) && ParentLast(s) && ClosedEmpty(s) && FramesQueued(s) && FirstError(s) && CareHelps(s)
  }

  /** The parent waits for nothing. */
  predicate Stuck(s: State) {
    s.parent && s.tasks == [] && s.pending == 0
  }

  /** The parent can be left waiting for nothing only by a start that ended without handing over its
      task, or by a task that ended before it was listed. */
  ghost predicate Fine(s: State) {
    match s.kind
    case Kind(_, _) => Sound(s) && (Stuck(s) ==> s.quiet > 0 || s.hasty > 0 || s.opening || s.transit != {})
  }

  /** How a task can have moved on during a re-entrant call: no cancel() is undone, a report stays under
      way, and a cancelled start does not hand its task over any more. */
  predicate MovedOn(before: Task, after: Task) {
    && before.cancels <= after.cancels
    && (before.place.Over? ==> after.place.Over?)
    && (before.place == Starting(true) || (before.place.Nowhere? && before.cancels == 1) ==>
          after.place == Starting(true) || (after.place.Nowhere? && after.cancels == 1))
  }

  /** What a re-entrant call leaves to its caller. */
  ghost predicate Kept(s: State, s': State) {
    match s'.kind
    case Kind(_, _) =>
      && s.queue <= s'.queue && s.reports <= s'.reports && (s.cancelling ==> s'.cancelling)
      && s'.transit == s.transit && s'.batch == s.batch && s'.kind == s.kind
      && (forall t :: t in s.info ==> t in s'.info && MovedOn(s.info[t], s'.info[t]))
  }

  lemma KeptTrans(s0: State, s1: State, s2: State)
    requires Kept(s0, s1) && Kept(s1, s2)
    ensures Kept(s0, s2)
  {
    forall t | t in s0.info ensures t in s2.info && MovedOn(s0.info[t], s2.info[t]) {
      assert MovedOn(s0.info[t], s1.info[t]) && MovedOn(s1.info[t], s2.info[t]);
    }
  }

  lemma KeptBatch(s: State, s': State)
    requires Kept(s, s')
    ensures forall b :: Kept(s.(batch := b), s'.(batch := b))
  {}

  lemma KeptSelf(s: State)
    ensures Kept(s, s)
  {}

  lemma KeptFacts(s: State, s': State)
    requires Kept(s, s')
    ensures s.queue <= s'.queue && s.reports <= s'.reports && (s.cancelling ==> s'.cancelling)
    ensures s'.transit == s.transit && s'.batch == s.batch && s'.kind == s.kind
    ensures forall t :: t in s.info ==> t in s'.info && MovedOn(s.info[t], s'.info[t])
  {}

  /** A change of one task keeps what it is not about. */
  lemma KeptOne(s: State, s': State, t: nat, task: Task)
    requires s'.info == With(s, t, task) && (t in s.info ==> MovedOn(s.info[t], task))
    requires s.queue <= s'.queue && s.reports <= s'.reports && (s.cancelling ==> s'.cancelling)
    requires s'.transit == s.transit && s'.batch == s.batch && s'.kind == s.kind
    ensures Kept(s, s')
  {}

  // ----- what one task's facts are

  lemma FactsOf(s: State, t: nat)
    requires Sound(s) && t in s.info
    ensures CancelOk(s.info[t], t in s.batch, s.cancelling)
    ensures t in s.tasks <==> s.info[t].place.Listed()
    ensures t in s.starting <==> s.info[t].place.Starting?
    ensures t in s.transit <==> s.info[t].place.InTransit()
    ensures t in s.short <==> s.info[t].place.EndedEarly?
    ensures Destroy(t) in s.queue <==> s.info[t].place.ToDestroy()
    ensures s.info[t].place.Over? ==> s.open
    ensures t in s.batch ==> !s.info[t].place.Nowhere? && !s.info[t].confirmed && s.info[t].cancels == 0
  {}

  // ----- steps, on states

  function With(s: State, t: nat, task: Task): map<nat, Task> {
    s.info[t := task]
  }

  lemma KeepCancels(s: State, s': State, t: nat, task: Task)
    requires CancelledOnce(s) && CancelOk(task, t in s.batch, s.cancelling)
    requires s'.info == With(s, t, task) && s'.batch == s.batch && s'.cancelling == s.cancelling
    ensures CancelledOnce(s')
  {}

  lemma KeepFrames(s: State, s': State, t: nat, task: Task)
    requires FramesQueued(s) && (Destroy(t) in s.queue <==> task.place.ToDestroy())
    requires s'.info == With(s, t, task) && s'.queue == s.queue
    ensures FramesQueued(s')
  {}

  lemma KeepClosed(s: State, s': State, t: nat, task: Task)
    requires ClosedEmpty(s) && (s.open || (!task.place.Over? && (task.place.In? ==> s.overrun)))
    requires s'.info == With(s, t, task) && s'.open == s.open && s'.overrun == s.overrun && s'.cancelling == s.cancelling
    ensures ClosedEmpty(s')
  {}

  lemma KeepParent(s: State, s': State)
    requires ParentLast(s) && s'.kind == s.kind
    requires s'.open == s.open && s'.bound == s.bound && s'.parent == s.parent && s'.resumes == s.resumes && s'.queue == s.queue
    requires s'.opening == s.opening && s.late <= s'.late && (s'.pending <= s.pending || s.late < s'.late || s.open)
    ensures ParentLast(s')
  {}

  /** A change of one task keeps what is not about where it is. */
  lemma KeepTask(s: State, s': State, t: nat, task: Task)
    requires Sound(s) && CancelOk(task, t in s.batch, s.cancelling) && (Destroy(t) in s.queue <==> task.place.ToDestroy())
    requires s.open || (!task.place.Over? && (task.place.In? ==> s.overrun))
    requires s'.info == With(s, t, task) && s'.batch == s.batch && s'.cancelling == s.cancelling && s'.queue == s.queue
    requires s'.open == s.open && s'.overrun == s.overrun
    ensures CancelledOnce(s') && FramesQueued(s') && ClosedEmpty(s')
  {
    hide CancelledOnce, FramesQueued, ClosedEmpty, CancelOk;
    KeepCancels(s, s', t, task);
    KeepFrames(s, s', t, task);
    KeepClosed(s, s', t, task);
  }

  lemma KeepRest(s: State, s': State)
    requires Sound(s)
    requires s'.open == s.open && s'.bound == s.bound && s'.parent == s.parent && s'.resumes == s.resumes && s'.queue == s.queue
    requires s'.opening == s.opening && s.late <= s'.late && (s'.pending <= s.pending || s.late < s'.late || s.open)
    requires s'.error == s.error && s'.reports == s.reports && (s.cancelling ==> s'.cancelling)
    requires s'.kind == s.kind && s'.transit <= s.transit && s'.overrun == s.overrun && s'.hasty == s.hasty && s'.short <= s.short
    ensures ParentLast(s') && FirstError(s') && CareHelps(s')
  {}

  function Put(xs: set<nat>, t: nat, there: bool): set<nat> {
    if there then xs + {t} else xs - {t}
  }

  lemma PutCounts(xs: set<nat>, t: nat)
    ensures t !in xs ==> |xs + {t}| == |xs| + 1 && xs - {t} == xs
    ensures t in xs ==> |xs - {t}| == |xs| - 1 && xs + {t} == xs
  {
    if t in xs { assert xs == (xs - {t}) + {t}; }
  }

  lemma SetList(tasks: seq<nat>, tasks': seq<nat>, info: map<nat, Task>, t: nat, task: Task)
    requires ListIs(tasks, info) && Distinct(tasks')
    requires forall u :: u in tasks' <==> if u == t then task.place.Listed() else u in tasks
    ensures ListIs(tasks', info[t := task])
  {
    hide Distinct;
  }

  lemma SetSets(starting: set<nat>, short: set<nat>, transit: set<nat>, info: map<nat, Task>, t: nat, task: Task)
    requires StartsAre(starting, info) && ShortAre(short, info) && TransitIs(transit, info)
    ensures StartsAre(Put(starting, t, task.place.Starting?), info[t := task])
    ensures ShortAre(Put(short, t, task.place.EndedEarly?), info[t := task])
    ensures TransitIs(Put(transit, t, task.place.InTransit()), info[t := task])
  {}

  /** One task goes from one place to another. */
  lemma SetPlace(s: State, s': State, t: nat, task: Task)
    requires OnePlace(s) && s'.info == With(s, t, task)
    requires Distinct(s'.tasks) && forall u :: u in s'.tasks <==> if u == t then task.place.Listed() else u in s.tasks
    requires s'.starting == Put(s.starting, t, task.place.Starting?) && s'.short == Put(s.short, t, task.place.EndedEarly?)
    requires s'.transit == Put(s.transit, t, task.place.InTransit())
    requires s'.pending == |s'.starting| && s'.taskCount == |s'.tasks| - |s'.short|
    ensures OnePlace(s')
  {
    hide Distinct, ListIs, StartsAre, ShortAre, TransitIs, Put;
    SetList(s.tasks, s'.tasks, s.info, t, task);
    SetSets(s.starting, s.short, s.transit, s.info, t, task);
  }

  /** One task changes within its place. */
  lemma KeepPlace(s: State, s': State, t: nat, task: Task)
    requires OnePlace(s) && t in s.info
    requires task.place.Listed() == s.info[t].place.Listed() && task.place.Starting? == s.info[t].place.Starting?
    requires task.place.EndedEarly? == s.info[t].place.EndedEarly? && task.place.InTransit() == s.info[t].place.InTransit()
    requires s'.info == With(s, t, task) && s'.tasks == s.tasks && s'.taskCount == s.taskCount && s'.pending == s.pending
    requires s'.starting == s.starting && s'.short == s.short && s'.transit == s.transit
    ensures OnePlace(s')
  {
    assert Put(s.starting, t, task.place.Starting?) == s.starting && Put(s.short, t, task.place.EndedEarly?) == s.short;
    assert Put(s.transit, t, task.place.InTransit()) == s.transit;
    assert forall u :: u in s.tasks <==> if u == t then task.place.Listed() else u in s.tasks;
    hide ListIs, StartsAre, ShortAre, TransitIs, Put;
    PlaceCounts(s);
    SetPlace(s, s', t, task);
  }

  lemma PlaceCounts(s: State)
    requires OnePlace(s)
    ensures Distinct(s.tasks) && s.taskCount == |s.tasks| - |s.short| && s.pending == |s.starting|
  {}

  function StartCancelled(s: State, t: nat): State {
    s.(info := With(s, t, Task(Starting(true), 1, false)))
  }

  lemma KeepErrors(s: State, s': State)
    requires FirstError(s) && s'.error == s.error && s'.reports == s.reports && (s.cancelling ==> s'.cancelling)
    ensures FirstError(s')
  {}

  lemma KeepCare(s: State, s': State)
    requires CareHelps(s) && s'.kind == s.kind && s'.transit <= s.transit && s'.overrun == s.overrun && s'.hasty == s.hasty
    requires s'.short <= s.short
    ensures CareHelps(s')
  {}

  function NewTask(s: State): Task {
    Task(In, if s.cancelling then 1 else 0, false)
  }

  function Adopted(s: State, t: nat): State {
    s.(info := With(s, t, NewTask(s)), tasks := s.tasks + [t], taskCount := s.taskCount + 1)
  }

  lemma AdoptSound(s: State, t: nat)
    requires Sound(s) && s.open && (t in s.info ==> s.info[t] == Task(Nowhere, 0, false))
    ensures Fine(Adopted(s, t)) && Kept(s, Adopted(s, t))
  {
    var s' := Adopted(s, t);
    AdoptPlace(s, t);
    NowhereFacts(s, t);
    hide OnePlace, CancelledOnce, FramesQueued, ParentLast, ClosedEmpty, FirstError, CareHelps, CancelOk, Kept;
    KeepTask(s, s', t, NewTask(s));
    KeepRest(s, s');
    KeptOne(s, s', t, NewTask(s));
  }

  lemma NowhereFacts(s: State, t: nat)
    requires Sound(s) && (t in s.info ==> s.info[t].place.Nowhere?)
    ensures t !in s.tasks && t !in s.starting && t !in s.transit && t !in s.batch && t !in s.short && Destroy(t) !in s.queue
  {
    if t in s.info { FactsOf(s, t); }
  }

  lemma AppendDistinct(xs: seq<nat>, x: nat)
    requires Distinct(xs) && x !in xs
    ensures Distinct(xs + [x]) && forall u :: u in xs + [x] <==> u == x || u in xs
  {}

  lemma AdoptPlace(s: State, t: nat)
    requires Sound(s) && (t in s.info ==> s.info[t] == Task(Nowhere, 0, false))
    ensures OnePlace(Adopted(s, t))
  {
    NowhereFacts(s, t);
    PlaceCounts(s);
    PutCounts(s.starting, t);
    PutCounts(s.short, t);
    PutCounts(s.transit, t);
    AppendDistinct(s.tasks, t);
    hide OnePlace, CancelledOnce, FramesQueued, ParentLast, ClosedEmpty, FirstError, CareHelps, CancelOk, Distinct, Without;
    SetPlace(s, Adopted(s, t), t, NewTask(s));
  }

  function Opened(s: State): State {
    s.(open := true, parent := true, bound := 1, opening := true)
  }

  lemma OpenSound(s: State)
    requires Sound(s) && s.bound == 0 && !s.open
    ensures Fine(Opened(s)) && Kept(s, Opened(s))
  {
    KeptSelf(s);
  }

  /** A task leaves, and its destruction is queued. */
  function Left(s: State, t: nat): State
    requires t in s.info
  {
    s.(tasks := Without(s.tasks, t), taskCount := s.taskCount - 1, info := With(s, t, s.info[t].(place := Finished)),
       queue := s.queue + [Destroy(t)])
  }

  lemma WithoutListed(xs: seq<nat>, x: nat)
    requires Distinct(xs) && x in xs
    ensures Distinct(Without(xs, x)) && |Without(xs, x)| == |xs| - 1 && forall u :: u in Without(xs, x) <==> u in xs && u != x
  {
    WithoutMembers(xs, x);
    WithoutOne(xs, x);
  }

  lemma LeavePlace(s: State, t: nat)
    requires Sound(s) && t in s.info && s.info[t].place.Live()
    ensures OnePlace(Left(s, t))
  {
    FactsOf(s, t);
    PlaceCounts(s);
    PutCounts(s.starting, t);
    PutCounts(s.short, t);
    PutCounts(s.transit, t);
    WithoutListed(s.tasks, t);
    hide OnePlace, CancelledOnce, FramesQueued, ParentLast, ClosedEmpty, FirstError, CareHelps, CancelOk, Distinct, Without;
    SetPlace(s, Left(s, t), t, s.info[t].(place := Finished));
  }

  lemma QueueMore(queue: seq<Callback>, cb: Callback)
    requires QueuedOnce(queue) && cb !in queue
    ensures QueuedOnce(queue + [cb]) && forall c :: c in queue + [cb] <==> c in queue || c == cb
  {}

  lemma LeaveFrames(s: State, t: nat)
    requires Sound(s) && t in s.info && s.info[t].place.Live() && s.open
    ensures FramesQueued(Left(s, t)) && ParentLast(Left(s, t))
  {
    var s' := Left(s, t);
    assert Destroy(t) !in s.queue && ResumeParent !in s.queue;
    QueueMore(s.queue, Destroy(t));
    hide CancelledOnce, OnePlace, ClosedEmpty, FirstError, CareHelps, CancelOk, QueuedOnce, Without;
    assert FramesQueued(s') by { hide ParentLast; }
    hide FramesQueued;
  }

  lemma LeaveSound(s: State, t: nat)
    requires Sound(s) && t in s.info && s.info[t].place.Live() && s.open
    ensures Sound(Left(s, t))
  {
    var s' := Left(s, t);
    FactsOf(s, t);
    LeavePlace(s, t);
    LeaveFrames(s, t);
    var task := s.info[t].(place := Finished);
    assert CancelOk(task, t in s.batch, s.cancelling);
    hide OnePlace, CancelledOnce, FramesQueued, ParentLast, ClosedEmpty, FirstError, CareHelps, CancelOk, Without;
    KeepCancels(s, s', t, task);
    KeepClosed(s, s', t, task);
    KeepErrors(s, s');
    KeepCare(s, s');
  }

  predicate Closes(s: State) {
    s.tasks == [] && s.pending == 0 && s.parent
  }

  /** The parent's resumption is queued when nothing is left to wait for. */
  function Closed(s: State): State {
    if Closes(s) then s.(parent := false, open := false, queue := s.queue + [ResumeParent], opening := false) else s
  }

  lemma CloseSound(s: State)
    requires Sound(s)
    ensures Sound(Closed(s)) && !Stuck(Closed(s)) && Fine(Closed(s))
  {
    var s' := Closed(s);
    if Closes(s) {
      CloseParent(s);
      assert forall t :: t in s.info ==> !s.info[t].place.Live() by {
        forall t | t in s.info ensures !s.info[t].place.Live() { FactsOf(s, t); }
      }
    }
    hide Without, QueuedOnce;
  }

  lemma CloseParent(s: State)
    requires Sound(s) && Closes(s)
    ensures ParentLast(Closed(s)) && FramesQueued(Closed(s))
  {
    assert ResumeParent !in s.queue;
    hide OnePlace, CancelledOnce, ClosedEmpty, FirstError, CareHelps, CancelOk;
  }

  /** One task changes, and stays where it is. */
  lemma UpdateSound(s: State, t: nat, task: Task)
    requires Fine(s) && t in s.info && CancelOk(task, t in s.batch, s.cancelling)
    requires task.place == s.info[t].place || (task.place.Over? && s.info[t].place.In? && s.open)
             || (task.place.Starting? && s.info[t].place.Starting?)
    requires MovedOn(s.info[t], task)
    ensures var s' := s.(info := With(s, t, task)); Fine(s') && Kept(s, s')
  {
    var s' := s.(info := With(s, t, task));
    assert task.place.ToDestroy() == s.info[t].place.ToDestroy();
    assert Destroy(t) in s.queue <==> task.place.ToDestroy();
    assert s.open || (!task.place.Over? && (task.place.In? ==> s.overrun));
    hide OnePlace, CancelledOnce, FramesQueued, ParentLast, ClosedEmpty, FirstError, CareHelps, CancelOk, Kept, MovedOn;
    KeepPlace(s, s', t, task);
    KeepTask(s, s', t, task);
    KeepRest(s, s');
    KeptOne(s, s', t, task);
  }

  /** cancel() of the first task of the batch. */
  function NextCancelled(s: State): State
    requires s.batch != [] && s.batch[0] in s.info
  {
    var t := s.batch[0];
    s.(batch := s.batch[1..], info := With(s, t, s.info[t].(cancels := 1)))
  }

  lemma NextSound(s: State)
    requires Fine(s) && s.batch != []
    ensures s.batch[0] in s.info && Fine(NextCancelled(s)) && Kept(s.(batch := s.batch[1..]), NextCancelled(s))
  {
    var t := s.batch[0];
    FactsOf(s, t);
    var task, s' := s.info[t].(cancels := 1), NextCancelled(s);
    NextCancels(s);
    assert Destroy(t) in s.queue <==> task.place.ToDestroy();
    assert s.open || (!task.place.Over? && (task.place.In? ==> s.overrun));
    assert s.cancelling && MovedOn(s.info[t], task);
    hide OnePlace, CancelledOnce, FramesQueued, ParentLast, ClosedEmpty, FirstError, CareHelps, CancelOk, Kept, MovedOn;
    KeepPlace(s, s', t, task);
    KeepFrames(s, s', t, task);
    KeepClosed(s, s', t, task);
    KeepParent(s, s');
    KeepErrors(s, s');
    KeepCare(s, s');
    KeptOne(s.(batch := s.batch[1..]), s', t, task);
  }

  lemma NextCancels(s: State)
    requires Sound(s) && s.batch != []
    ensures s.batch[0] in s.info && CancelledOnce(NextCancelled(s))
  {
    assert s.batch == [s.batch[0]] + s.batch[1..];
    assert CancelOk(s.info[s.batch[0]], true, s.cancelling);
    hide OnePlace, FramesQueued, ParentLast, ClosedEmpty, FirstError, CareHelps;
  }

  /** The cancelling bit has just been set; everybody who is listed is going to be cancelled. */
  lemma BatchSound(s: State)
    requires Sound(s.(cancelling := false, error := None, reports := [])) && s.cancelling && FirstError(s)
    requires Stuck(s) ==> s.quiet > 0 || s.hasty > 0 || s.opening || s.transit != {}
    ensures s.batch == [] && Fine(s.(batch := s.tasks)) && (!s.open ==> s.tasks == [])
    ensures forall t :: t in s.tasks ==> t in s.info
  {
    var s0, s' := s.(cancelling := false, error := None, reports := []), s.(batch := s.tasks);
    forall t | t in s.info
      ensures CancelOk(s.info[t], t in s.tasks, true)
      ensures t in s.tasks ==> s.open
    {
      FactsOf(s0, t);
    }
    assert s.tasks != [] ==> s.tasks[0] in s.info && s.tasks[0] in s.tasks;
    assert OnePlace(s') && CancelledOnce(s') && ParentLast(s') && ClosedEmpty(s') && FramesQueued(s') && FirstError(s') && CareHelps(s');
  }

  // ----- starts, on states

  /** A start awaiter that holds its task. */
  function Awaited(s: State, t: nat, early: bool): State {
    s.(info := With(s, t, Task(Starting(early), if early then 1 else 0, false)), starting := s.starting + {t}, pending := s.pending + 1,
       late := s.late + if s.open then 0 else 1)
  }

  lemma AwaitPlace(s: State, t: nat, early: bool)
    requires Sound(s) && t !in s.info
    ensures OnePlace(Awaited(s, t, early))
  {
    NowhereFacts(s, t);
    PlaceCounts(s);
    PutCounts(s.starting, t);
    PutCounts(s.short, t);
    PutCounts(s.transit, t);
    hide OnePlace, CancelledOnce, FramesQueued, ParentLast, ClosedEmpty, FirstError, CareHelps, CancelOk, Distinct, Without;
    SetPlace(s, Awaited(s, t, early), t, Task(Starting(early), if early then 1 else 0, false));
  }

  /** What a change of the starts leaves alone. */
  ghost predicate OnlyStarts(s: State, s': State) {
    match s'.kind
    case Kind(_, _) =>
      && s'.open == s.open && s'.cancelling == s.cancelling && s'.tasks == s.tasks && s'.parent == s.parent && s'.error == s.error
      && s'.queue == s.queue && s'.batch == s.batch && s'.bound == s.bound && s'.opening == s.opening && s'.resumes == s.resumes
      && s'.reports == s.reports && s'.quiet == s.quiet && s'.hasty == s.hasty && s'.overrun == s.overrun && s'.short == s.short
      && s'.kind == s.kind
  }

  lemma StartsKeep(s: State, s': State, t: nat, task: Task)
    requires Sound(s) && OnlyStarts(s, s') && OnePlace(s') && s'.info == With(s, t, task)
    requires CancelOk(task, t in s.batch, s.cancelling) && (Destroy(t) in s.queue <==> task.place.ToDestroy())
    requires !task.place.Over? && !task.place.In?
    requires s.late <= s'.late && (s'.pending <= s.pending || s.late < s'.late || s.open)
    requires s.kind.careful ==> s'.transit == {}
    ensures Sound(s')
  {
    hide OnePlace, CancelledOnce, FramesQueued, ParentLast, ClosedEmpty, FirstError, CancelOk;
    KeepTask(s, s', t, task);
    KeepParent(s, s');
    KeepErrors(s, s');
  }

  lemma AwaitSound(s: State, t: nat, early: bool)
    requires Fine(s) && t !in s.info
    ensures Fine(Awaited(s, t, early)) && Kept(s, Awaited(s, t, early))
  {
    var s', task := Awaited(s, t, early), Task(Starting(early), if early then 1 else 0, false);
    AwaitPlace(s, t, early);
    NowhereFacts(s, t);
    assert CancelOk(task, false, s.cancelling) && OnlyStarts(s, s') && s'.transit == s.transit && s'.info == With(s, t, task);
    assert s'.late == s.late + (if s.open then 0 else 1) && (s.kind.careful ==> s.transit == {});
    assert s'.pending > 0;
    hide OnePlace, CancelledOnce, FramesQueued, ParentLast, ClosedEmpty, FirstError, CareHelps, CancelOk, Kept, Awaited, Sound;
    StartsKeep(s, s', t, task);
    KeptOne(s, s', t, task);
  }

  /** A start awaiter has let go of its task, which goes somewhere else. */
  function LetGo(s: State, t: nat, task: Task): State {
    s.(info := With(s, t, task), starting := s.starting - {t}, pending := if s.pending > 0 then s.pending - 1 else 0,
       transit := if task.place.InTransit() then s.transit + {t} else s.transit)
  }

  lemma LetGoPlace(s: State, t: nat, task: Task)
    requires Sound(s) && t in s.info && s.info[t].place.Starting? && (task.place.Nowhere? || task.place.Handed?)
    ensures OnePlace(LetGo(s, t, task)) && LetGo(s, t, task).pending == s.pending - 1
  {
    FactsOf(s, t);
    PlaceCounts(s);
    PutCounts(s.starting, t);
    PutCounts(s.short, t);
    PutCounts(s.transit, t);
    hide OnePlace, CancelledOnce, FramesQueued, ParentLast, ClosedEmpty, FirstError, CareHelps, CancelOk, Distinct, Without;
    SetPlace(s, LetGo(s, t, task), t, task);
  }

  lemma LetGoSound(s: State, t: nat, task: Task)
    requires Fine(s) && t in s.info && s.info[t].place.Starting? && (task.place.Nowhere? || task.place.Handed?)
    requires CancelOk(task, false, s.cancelling) && (s.kind.careful ==> !task.place.Handed?)
    ensures Sound(LetGo(s, t, task)) && LetGo(s, t, task).pending == s.pending - 1
    ensures task.place.Handed? ==> Fine(LetGo(s, t, task))
    ensures MovedOn(s.info[t], task) ==> Kept(s.(transit := LetGo(s, t, task).transit), LetGo(s, t, task))
    ensures MovedOn(s.info[t], task) && task.place.Nowhere? ==> Kept(s, LetGo(s, t, task))
  {
    var s' := LetGo(s, t, task);
    LetGoPlace(s, t, task);
    FactsOf(s, t);
    assert t !in s.batch && Destroy(t) !in s.queue by { assert CancelOk(s.info[t], t in s.batch, s.cancelling); }
    assert OnlyStarts(s, s') && s'.info == With(s, t, task) && s'.late == s.late;
    assert s.kind.careful ==> s'.transit == {};
    assert task.place.Handed? ==> t in s'.transit;
    hide OnePlace, CancelledOnce, FramesQueued, ParentLast, ClosedEmpty, FirstError, CancelOk, Kept, MovedOn, LetGo, CareHelps, Sound;
    StartsKeep(s, s', t, task);
    if MovedOn(s.info[t], task) {
      KeptOne(s.(transit := s'.transit), s', t, task);
      if task.place.Nowhere? { KeptOne(s, s', t, task); }
    }
  }

  /** A task ends while it is being handed over: it is counted out, and its destruction is queued. */
  function EndsInTransit(s: State, t: nat): State {
    s.(info := With(s, t, Task(EndedEarly(false), 1, true)), taskCount := s.taskCount - 1, short := s.short + {t},
       queue := s.queue + [Destroy(t)], hasty := s.hasty + 1)
  }

  lemma EndsPlace(s: State, t: nat)
    requires Sound(s) && t in s.info && s.info[t].place.Handed?
    ensures OnePlace(EndsInTransit(s, t))
  {
    FactsOf(s, t);
    PlaceCounts(s);
    PutCounts(s.starting, t);
    PutCounts(s.short, t);
    PutCounts(s.transit, t);
    hide OnePlace, CancelledOnce, FramesQueued, ParentLast, ClosedEmpty, FirstError, CareHelps, CancelOk, Distinct, Without;
    SetPlace(s, EndsInTransit(s, t), t, Task(EndedEarly(false), 1, true));
  }

  lemma EndsFrames(s: State, t: nat)
    requires Sound(s) && t in s.info && s.info[t].place.Handed? && s.open
    ensures FramesQueued(EndsInTransit(s, t))
  {
    assert Destroy(t) !in s.queue;
    QueueMore(s.queue, Destroy(t));
    hide CancelledOnce, OnePlace, ClosedEmpty, FirstError, CareHelps, CancelOk, QueuedOnce, ParentLast;
  }

  lemma EndsParent(s: State, t: nat)
    requires Sound(s) && s.open
    ensures ParentLast(EndsInTransit(s, t))
  {
    hide CancelledOnce, OnePlace, ClosedEmpty, FirstError, CareHelps, FramesQueued;
    assert ResumeParent !in s.queue;
  }

  lemma EndsSound(s: State, t: nat)
    requires Fine(s) && t in s.info && s.info[t].place.Handed? && s.open
    ensures Fine(EndsInTransit(s, t)) && Kept(s, EndsInTransit(s, t))
  {
    var s', task := EndsInTransit(s, t), Task(EndedEarly(false), 1, true);
    EndsPlace(s, t);
    EndsFrames(s, t);
    EndsParent(s, t);
    FactsOf(s, t);
    assert CancelOk(task, t in s.batch, s.cancelling) && t in s.transit;
    hide OnePlace, CancelledOnce, FramesQueued, ParentLast, ClosedEmpty, FirstError, CancelOk, Kept;
    KeepCancels(s, s', t, task);
    KeepClosed(s, s', t, task);
    KeepErrors(s, s');
    KeptOne(s, s', t, task);
  }

  /** adopt() lists a task that it has cancelled, whatever has become of it and of the nursery. */
  function Enlisted(s: State, t: nat): State
    requires t in s.info
  {
    var live := s.info[t].place.Handed?;
    s.(info := With(s, t, s.info[t].(place := if live then In else EndedEarly(true))), tasks := s.tasks + [t],
       taskCount := s.taskCount + 1, transit := s.transit - {t}, overrun := s.overrun || (live && !s.open))
  }

  lemma EnlistLive(s: State, t: nat)
    requires Sound(s) && t in s.info && s.info[t].place.Handed?
    ensures OnePlace(Enlisted(s, t))
  {
    FactsOf(s, t);
    PlaceCounts(s);
    PutCounts(s.starting, t);
    PutCounts(s.short, t);
    AppendDistinct(s.tasks, t);
    hide OnePlace, CancelledOnce, FramesQueued, ParentLast, ClosedEmpty, FirstError, CareHelps, CancelOk, Distinct, Without;
    SetPlace(s, Enlisted(s, t), t, s.info[t].(place := In));
  }

  lemma EnlistEnded(s: State, t: nat)
    requires Sound(s) && t in s.info && s.info[t].place == EndedEarly(false)
    ensures OnePlace(Enlisted(s, t))
  {
    FactsOf(s, t);
    PlaceCounts(s);
    PutCounts(s.starting, t);
    PutCounts(s.short, t);
    AppendDistinct(s.tasks, t);
    hide OnePlace, CancelledOnce, FramesQueued, ParentLast, ClosedEmpty, FirstError, CareHelps, CancelOk, Distinct, Without;
    SetPlace(s, Enlisted(s, t), t, s.info[t].(place := EndedEarly(true)));
  }

  lemma EnlistPlace(s: State, t: nat)
    requires Sound(s) && t in s.transit && t in s.info
    ensures OnePlace(Enlisted(s, t)) && s.info[t].place.InTransit()
  {
    FactsOf(s, t);
    hide Sound, OnePlace;
    if s.info[t].place.Handed? { EnlistLive(s, t); } else { EnlistEnded(s, t); }
  }

  lemma EnlistSound(s: State, t: nat)
    requires Fine(s) && t in s.transit
    ensures t in s.info && Fine(Enlisted(s, t)) && Kept(s.(transit := s.transit - {t}), Enlisted(s, t))
    ensures Enlisted(s, t).overrun <==> s.overrun || (s.info[t].place.Handed? && !s.open)
  {
    assert t in s.info;
    EnlistPlace(s, t);
    var s' := Enlisted(s, t);
    var task := s'.info[t];
    FactsOf(s, t);
    assert Destroy(t) in s.queue <==> task.place.ToDestroy();
    assert CancelOk(task, t in s.batch, s.cancelling) && !s.kind.careful && s.cancelling;
    assert ClosedEmpty(s');
    hide OnePlace, CancelledOnce, FramesQueued, ParentLast, ClosedEmpty, FirstError, CancelOk, Kept;
    KeepCancels(s, s', t, task);
    KeepFrames(s, s', t, task);
    KeepParent(s, s');
    KeepErrors(s, s');
    KeptOne(s.(transit := s.transit - {t}), s', t, task);
  }

  // ----- callbacks, on states

  /** A frame is destroyed; a task that ended before it was listed is unlinked only now. */
  function Destroyed(s: State, t: nat): State
    requires t in s.info && s.queue != []
  {
    var listed := s.info[t].place.EndedEarly?;
    s.(queue := s.queue[1..], info := With(s, t, s.info[t].(place := Nowhere)), tasks := if listed then Without(s.tasks, t) else s.tasks,
       short := s.short - {t})
  }

  lemma QueueRest(queue: seq<Callback>)
    requires QueuedOnce(queue) && queue != []
    ensures QueuedOnce(queue[1..]) && forall cb :: cb in queue[1..] <==> cb in queue && cb != queue[0]
    ensures forall i :: 0 <= i < |queue| - 1 ==> queue[1..][i] == queue[i + 1]
  {
    assert queue == [queue[0]] + queue[1..];
  }

  lemma DestroyFrames(s: State)
    requires Sound(s) && s.queue != [] && s.queue[0].Destroy?
    ensures var t := s.queue[0].t; t in s.info && s.info[t].place.ToDestroy() && FramesQueued(Destroyed(s, t)) && ParentLast(Destroyed(s, t))
  {
    var t, rest := s.queue[0].t, s.queue[1..];
    QueueRest(s.queue);
    assert Destroy(t) in s.queue;
    hide CancelledOnce, OnePlace, ClosedEmpty, FirstError, CareHelps, CancelOk, QueuedOnce, Without;
    assert FramesQueued(Destroyed(s, t));
    hide FramesQueued;
  }

  lemma DestroyEarly(s: State, t: nat)
    requires Sound(s) && s.queue != [] && s.transit == {} && t in s.info && s.info[t].place.EndedEarly?
    ensures OnePlace(Destroyed(s, t))
  {
    FactsOf(s, t);
    PlaceCounts(s);
    PutCounts(s.starting, t);
    PutCounts(s.short, t);
    PutCounts(s.transit, t);
    WithoutListed(s.tasks, t);
    hide OnePlace, CancelledOnce, FramesQueued, ParentLast, ClosedEmpty, FirstError, CareHelps, CancelOk, Distinct, Without;
    SetPlace(s, Destroyed(s, t), t, s.info[t].(place := Nowhere));
  }

  lemma DestroyLate(s: State, t: nat)
    requires Sound(s) && s.queue != [] && s.transit == {} && t in s.info && s.info[t].place.Finished?
    ensures OnePlace(Destroyed(s, t))
  {
    FactsOf(s, t);
    PlaceCounts(s);
    PutCounts(s.starting, t);
    PutCounts(s.short, t);
    PutCounts(s.transit, t);
    hide OnePlace, CancelledOnce, FramesQueued, ParentLast, ClosedEmpty, FirstError, CareHelps, CancelOk, Distinct, Without;
    SetPlace(s, Destroyed(s, t), t, s.info[t].(place := Nowhere));
  }

  lemma DestroySound(s: State)
    requires Fine(s) && s.queue != [] && s.queue[0].Destroy? && s.transit == {} && s.batch == []
    ensures var t := s.queue[0].t; t in s.info && s.info[t].place.ToDestroy() && Fine(Destroyed(s, t))
  {
    var t := s.queue[0].t;
    DestroyFrames(s);
    if s.info[t].place.Finished? { DestroyLate(s, t); } else { DestroyEarly(s, t); }
    FactsOf(s, t);
    var s', task := Destroyed(s, t), s.info[t].(place := Nowhere);
    assert CancelOk(task, t in s.batch, s.cancelling);
    assert s.info[t].place.EndedEarly? ==> s.hasty > 0;
    hide OnePlace, CancelledOnce, FramesQueued, ParentLast, ClosedEmpty, FirstError, CareHelps, CancelOk, Without;
    KeepCancels(s, s', t, task);
    KeepClosed(s, s', t, task);
    KeepErrors(s, s');
    KeepCare(s, s');
  }

  function ParentResumed(s: State): State
    requires s.queue != []
  {
    s.(queue := s.queue[1..], resumes := s.resumes + 1)
  }

  lemma ResumeSound(s: State)
    requires Fine(s) && s.queue != [] && s.queue[0].ResumeParent? && s.transit == {}
    ensures Fine(ParentResumed(s)) && s.resumes == 0 && s.queue == [ResumeParent] && (s.late == 0 ==> s.pending == 0)
    ensures !s.overrun ==> s.tasks == [] && forall t :: t in s.info ==> s.info[t].place.Starting? || s.info[t].place.Nowhere?
  {
    assert s.queue == [ResumeParent];
    forall t | t in s.info && !s.overrun ensures s.info[t].place.Starting? || s.info[t].place.Nowhere? {
      FactsOf(s, t);
      assert Destroy(t) !in s.queue;
    }
    assert s.tasks != [] ==> s.tasks[0] in s.info && s.info[s.tasks[0]].place.Listed();
    hide CancelOk;
  }

  // ----- what keeps a nursery open while no task takes a step

  /** A listed task that cannot leave before a callback: it has no awaiter, or is still to be cancelled, or
      has left and is still to be destroyed. */
  predicate Stays(s: State, ready: set<nat>, u: nat) {
    u in s.info && s.info[u].place.Listed() && (!s.info[u].place.In? || u in ready || u in s.batch)
  }

  /** A start whose task has no awaiter. */
  predicate StartStays(s: State, ready: set<nat>, u: nat) {
    u in s.info && s.info[u].place.Starting? && u in ready
  }

  /** A task that may end in a way that closes the nursery: in it, or on its way there. */
  predicate MayEnd(s: State, ready: set<nat>, u: nat) {
    u in s.info && u !in ready && (s.info[u].place.In? || s.info[u].place.Handed? || s.info[u].place == Starting(false))
  }

  /** While task t is being handed over, the nursery cannot close: a task stays; or, with a parent waiting, a
      start stays or there is no other task to end. */
  ghost predicate HeldOpen(s: State, ready: set<nat>, t: nat) {
    || (exists u :: Stays(s, ready, u))
    || (s.parent && ((exists u :: u != t && StartStays(s, ready, u)) || forall u :: MayEnd(s, ready, u) ==> u == t))
  }

  /** If task t is handed over now, the nursery may close over it. */
  ghost predicate Exposed(s: State, ready: set<nat>, t: nat) {
    match s.kind
    case Kind(_, _) =>
      s.open && s.cancelling && t in s.info && s.info[t].place == Starting(false) && t !in ready && !HeldOpen(s, ready, t)
  }

  /** Task t is being handed over, and is not going to be overtaken. */
  ghost predicate Guarded(s: State, ready: set<nat>, t: nat) {
    match s.kind
    case Kind(_, _) =>
      && t in s.transit && s.cancelling && t in s.info
      && (s.info[t].place == EndedEarly(false) || (s.open && HeldOpen(s, ready, t)))
  }

  ghost predicate Wary(s: State, ready: set<nat>, s': State, ready': set<nat>) {
    forall t :: Guarded(s, ready, t) ==> Guarded(s', ready', t)
  }

  lemma WarySelf(s: State, ready: set<nat>)
    ensures Wary(s, ready, s, ready)
  {}

  lemma WaryTrans(s0: State, r0: set<nat>, s1: State, r1: set<nat>, s2: State, r2: set<nat>)
    requires Wary(s0, r0, s1, r1) && Wary(s1, r1, s2, r2)
    ensures Wary(s0, r0, s2, r2)
  {
    hide Guarded;
  }

  lemma NothingGuarded(s: State, ready: set<nat>)
    requires !s.cancelling
    ensures forall s', ready' :: Wary(s, ready, s', ready')
  {}

  /** One task goes on in a way that gives nobody else a chance to close the nursery. */
  ghost predicate Harmless(s: State, ready: set<nat>, s': State, ready': set<nat>, u: nat) {
    && u in s'.info && s'.info == s.info[u := s'.info[u]] && s'.batch == s.batch && ready <= ready' <= ready + {u}
    && s'.parent == s.parent
    && (Stays(s, ready, u) ==> Stays(s', ready', u))
    && (StartStays(s, ready, u) ==> StartStays(s', ready', u) || Stays(s', ready', u))
    && (MayEnd(s', ready', u) ==> MayEnd(s, ready, u))
  }

  lemma HarmlessHolds(s: State, ready: set<nat>, s': State, ready': set<nat>, u: nat, t: nat)
    requires Harmless(s, ready, s', ready', u) && HeldOpen(s, ready, t)
    ensures HeldOpen(s', ready', t)
  {
    if v :| Stays(s, ready, v) {
      assert Stays(s', ready', v);
    } else if v :| v != t && StartStays(s, ready, v) {
      assert StartStays(s', ready', v) || Stays(s', ready', v);
    } else {
      forall v | MayEnd(s', ready', v) ensures v == t {
        assert MayEnd(s, ready, v);
      }
    }
  }

  lemma HarmlessGuards(s: State, ready: set<nat>, s': State, ready': set<nat>, u: nat)
    requires Harmless(s, ready, s', ready', u) && s.transit <= s'.transit && (s.cancelling ==> s'.cancelling) && s'.open == s.open
    requires u in s.info && s.info[u].place == EndedEarly(false) ==> s'.info[u].place == EndedEarly(false)
    ensures Wary(s, ready, s', ready')
  {
    forall t | Guarded(s, ready, t) ensures Guarded(s', ready', t) {
      if s.open && HeldOpen(s, ready, t) { HarmlessHolds(s, ready, s', ready', u, t); }
    }
  }

  lemma StaysFacts(s: State, ready: set<nat>)
    requires Sound(s)
    ensures forall u :: Stays(s, ready, u) ==> u in s.tasks
    ensures forall u :: StartStays(s, ready, u) ==> u in s.starting && s.pending > 0
  {
    PlaceCounts(s);
  }

  lemma StartGuards(s: State, ready: set<nat>, t: nat)
    requires Fine(s) && t !in s.info
    ensures Wary(s, ready, Adopted(s, t), ready + {t})
  {
    HarmlessGuards(s, ready, Adopted(s, t), ready + {t}, t);
  }

  lemma AwaitGuards(s: State, ready: set<nat>, t: nat, early: bool)
    requires Fine(s) && t !in s.info
    ensures Wary(s, ready, Awaited(s, t, early), ready + {t})
  {
    HarmlessGuards(s, ready, Awaited(s, t, early), ready + {t}, t);
  }

  lemma WakeGuards(s: State, ready: set<nat>, t: nat)
    requires t in s.info
    ensures Wary(s, ready, s, ready + {t})
  {
    assert s.info == s.info[t := s.info[t]];
    HarmlessGuards(s, ready, s, ready + {t}, t);
  }

  lemma GiveUpGuards(s: State, ready: set<nat>, t: nat)
    requires t in s.info && s.info[t].place == Starting(false)
    ensures Wary(s, ready, StartCancelled(s, t), ready)
  {
    HarmlessGuards(s, ready, StartCancelled(s, t), ready, t);
  }

  lemma SignalGuards(s: State, ready: set<nat>, t: nat)
    requires Fine(s) && t in s.info && s.info[t].place.Starting? && t in ready
    ensures Wary(s, ready, Adopted(LetGo(s, t, Task(Nowhere, 0, false)), t), ready)
  {
    var s' := Adopted(LetGo(s, t, Task(Nowhere, 0, false)), t);
    assert s'.info == s.info[t := s'.info[t]];
    HarmlessGuards(s, ready, s', ready, t);
  }

  lemma QuietGuards(s: State, ready: set<nat>, t: nat)
    requires Fine(s) && t in s.info && s.info[t].place.Starting? && t !in ready
    ensures Wary(s, ready, Quieted(s, t, true), ready)
  {
    HarmlessGuards(s, ready, Quieted(s, t, true), ready, t);
  }

  lemma JoinGuards(s: State, ready: set<nat>)
    requires Fine(s) && !s.parent
    ensures s.tasks == [] ==> Wary(s, ready, s.(open := false), ready)
    ensures Wary(s, ready, s.(parent := true, bound := 1), ready)
  {
    StaysFacts(s, ready);
    var s' := s.(parent := true, bound := 1);
    forall t | HeldOpen(s, ready, t) ensures HeldOpen(s', ready, t) && s.tasks != [] {
      var v :| Stays(s, ready, v);
      assert Stays(s', ready, v) && v in s.tasks;
    }
  }

  lemma CancelGuards(s: State, ready: set<nat>)
    ensures !s.cancelling ==> forall s', ready' :: Wary(s, ready, s', ready')
  {}

  /** A task that ends and leaves does not close the nursery if that is held open: another one stays. */
  lemma LeaveHolds(s: State, ready: set<nat>, u: nat, t: nat)
    requires Fine(s) && MayEnd(s, ready, u) && u != t && s.info[u].place.In? && u !in s.batch && HeldOpen(s, ready, t)
    ensures !Closes(Left(s, u)) && HeldOpen(Ended(s, u, true), ready, t)
  {
    var s1, s' := Left(s, u), Ended(s, u, true);
    StaysFacts(s, ready);
    PlaceCounts(s);
    WithoutMembers(s.tasks, u);
    if v :| Stays(s, ready, v) {
      assert v != u && v in s1.tasks;
      assert Stays(s', ready, v);
    } else {
      assert s.parent && exists v :: v != t && StartStays(s, ready, v);
      var v :| v != t && StartStays(s, ready, v);
      assert v != u && StartStays(s', ready, v) && s1.pending > 0;
    }
  }

  lemma EndGuards(s: State, ready: set<nat>, u: nat)
    requires Fine(s) && s.open && u in s.info && s.info[u].place.In? && s.info[u].cancels == 1 && u !in ready
    ensures Wary(s, ready, Ended(s, u, true), ready)
  {
    FactsOf(s, u);
    forall t | Guarded(s, ready, t) ensures Guarded(Ended(s, u, true), ready, t) {
      FactsOf(s, t);
      if s.info[t].place != EndedEarly(false) { LeaveHolds(s, ready, u, t); }
    }
  }

  lemma EarlyHolds(s: State, ready: set<nat>, u: nat, t: nat)
    requires Fine(s) && MayEnd(s, ready, u) && u != t && s.info[u].place.Handed? && HeldOpen(s, ready, t)
    ensures !Closes(EndsInTransit(s, u)) && HeldOpen(Closed(EndsInTransit(s, u)), ready, t)
  {
    var s' := Closed(EndsInTransit(s, u));
    StaysFacts(s, ready);
    if v :| Stays(s, ready, v) {
      assert v != u && v in s.tasks;
      assert Stays(s', ready, v);
    } else {
      assert s.parent && exists v :: v != t && StartStays(s, ready, v);
      var v :| v != t && StartStays(s, ready, v);
      assert v != u && StartStays(s', ready, v) && s.pending > 0;
    }
  }

  lemma EarlyGuards(s: State, ready: set<nat>, u: nat)
    requires Fine(s) && s.open && u in s.info && s.info[u].place.Handed? && u !in ready
    ensures Wary(s, ready, Closed(EndsInTransit(s, u)), ready)
  {
    forall t | Guarded(s, ready, t) ensures Guarded(Closed(EndsInTransit(s, u)), ready, t) {
      if t != u && s.info[t].place != EndedEarly(false) { EarlyHolds(s, ready, u, t); }
    }
  }

  /** Before and after the cancel() of a task that is handed over. */
  lemma HandGuards(s: State, ready: set<nat>, s1: State, s2: State, ready2: set<nat>, t: nat)
    requires Fine(s) && s.open && s.cancelling && t in s.info && s.info[t].place == Starting(false) && t !in ready
    requires s1 == LetGo(s, t, Task(Handed, 1, false)) && Wary(s1, ready, s2, ready2) && Fine(s2)
    requires t in s2.transit && t in s2.info && s2.info[t].place.InTransit()
    ensures !s2.open && s2.info[t].place.Handed? ==> Exposed(s, ready, t)
    ensures Wary(s, ready, Enlisted(s2, t), ready2)
  {
    FactsOf(s, t);
    assert Harmless(s, ready, s1, ready, t);
    if HeldOpen(s, ready, t) {
      HarmlessHolds(s, ready, s1, ready, t, t);
      assert Guarded(s1, ready, t);
      assert Guarded(s2, ready2, t);
    }
    HarmlessGuards(s, ready, s1, ready, t);
    forall v | Guarded(s, ready, v) ensures Guarded(Enlisted(s2, t), ready2, v) {
      assert v in s.transit && Guarded(s1, ready, v) && Guarded(s2, ready2, v);
      FactsOf(s, v);
      ListedGuards(s2, ready2, t, v);
    }
  }

  lemma ListedGuards(s: State, ready: set<nat>, t: nat, v: nat)
    requires Fine(s) && t in s.info && s.info[t].place.InTransit() && Guarded(s, ready, v) && v != t
    ensures Guarded(Enlisted(s, t), ready, v)
  {
    var s' := Enlisted(s, t);
    assert Harmless(s, ready, s', ready, t);
    if s.open && HeldOpen(s, ready, v) { HarmlessHolds(s, ready, s', ready, t, v); }
  }

  // ----- the nursery

  class Nursery {
    const kind: Kind
    const busy: bool       // no task takes a step inside a call
    var open: bool
    var cancelling: bool
    var tasks: seq<nat>
    var taskCount: int
    var pending: nat
    var parent: bool
    var error: Option<nat>
    var queue: seq<Callback>
    var batch: seq<nat>
    var info: map<nat, Task>
    var starting: set<nat>
    ghost var short: set<nat>
    ghost var transit: set<nat>
    var bound: nat
    var opening: bool
    ghost var resumes: nat
    ghost var reports: seq<nat>
    ghost var quiet: nat
    ghost var hasty: nat
    ghost var late: nat
    ghost var overrun: bool
    var ready: set<nat>    // tasks without an awaiter: they wait for their next step, or take it
    ghost var asked: seq<nat>  // tasks that the nursery has gone through to cancel them, in that order

    ghost function Now(): State
      reads this
    {
      State(kind, open, cancelling, tasks, taskCount, pending, parent, error, queue, batch, info, starting, short, transit,
            bound, opening, resumes, reports, quiet, hasty, late, overrun)
    }

    /** An unsafe nursery is open from the start and gets a parent when somebody joins it; a scoped one is
        opened by its parent. */
    constructor (kind: Kind, busy: bool)
      ensures this.kind == kind && this.busy == busy && ready == {} && asked == []
      ensures Now() == State(kind, !kind.scoped, false, [], 0, 0, false, None, [], [], map[], {}, {}, {}, 0, false, 0, [], 0, 0, 0, false)
      ensures Fine(Now())
    {
      this.busy, ready, asked := busy, {}, [];
      this.kind, open, cancelling, tasks, taskCount, pending := kind, !kind.scoped, false, [], 0, 0;
      parent, error, queue, batch, info, starting := false, None, [], [], map[], {};
      bound, opening, resumes, reports, quiet := 0, false, 0, [], 0;
      short, transit, hasty, late, overrun := {}, {}, 0, 0, false;
    }

    // ----- the parent

    /** await_suspend() of a scope: binds the parent. */
    method Open()
      requires Fine(Now()) && kind.scoped && bound == 0 && !open
      modifies this`open, this`parent, this`bound, this`opening
      ensures Fine(Now()) && Kept(old(Now()), Now()) && Now() == Opened(old(Now()))
    {
      OpenSound(Now());
      open, parent, bound, opening := true, true, 1, true;
    }

    /** The body is a task. */
    method BodyStarts(t: nat)
      requires Fine(Now()) && opening && t !in info
      modifies this`opening, this`info, this`tasks, this`taskCount, this`ready
      ensures Fine(Now()) && Kept(old(Now()), Now()) && Now() == Adopted(old(Now()), t).(opening := false)
      ensures ready == old(ready) + {t}
    {
      ready := ready + {t};
      ghost var s := Now();
      assert open by { ParentFacts(s); }
      BodySound(s, t);
      assert Sound(s);
      hide Fine, Sound, Kept, Adopted;
      Adopt(t);
      opening := false;
    }

    /** The body is not a task: it is over already. It reports its outcome, and the nursery closes if there
        is nothing to wait for. */
    method BodyReady(outcome: Outcome, depth: nat)
      requires Fine(Now()) && opening
      modifies this
      ensures Fine(Now()) && Kept(old(Now()), Now()) && !opening && !Stuck(Now())
      ensures outcome.Error? ==> cancelling && old(reports) + [outcome.e] <= reports
      ensures outcome.CancelOthers? ==> cancelling
      ensures old(cancelling) ==> asked == old(asked)
      decreases depth, 4
    {
      hide Fine, Sound, Kept;
      ghost var s := Now();
      KeptSelf(s);
      assert parent by { ParentFacts(s); }
      if outcome.Error? {
        StoreError(outcome.e, depth);
      } else if outcome.CancelOthers? {
        Cancel(depth);
      }
      ghost var s1 := Now();
      Continuation(None);
      ContinueKeeps(s1, Now());
      KeptTrans(s, s1, Now());
      ghost var s2 := Now();
      OpeningOver(s2);
      opening := false;
      KeptTrans(s, s2, Now());
    }

    /** join(), by a parent of an unsafe nursery that has none. It closes the nursery at once if that has
        no tasks, even if there are starts. */
    method Join() returns (suspends: bool)
      requires Fine(Now()) && !kind.scoped && !parent
      modifies this`open, this`parent, this`bound
      ensures Fine(Now()) && Kept(old(Now()), Now()) && (suspends <==> old(open) && tasks != [])
      ensures parent == open == suspends && bound == old(bound) + if suspends then 1 else 0
      ensures Now() == if !old(open) then old(Now()) else if suspends then old(Now()).(parent := true, bound := 1) else old(Now()).(open := false)
    {
      JoinSound(Now());
      suspends := false;
      if open {
        if tasks == [] {
          open := false;
        } else {
          parent, bound, suspends := true, 1, true;
        }
      }
    }

    // ----- tasks

    /** Takes over a task. A nursery that is being cancelled cancels it. */
    method Adopt(t: nat)
      requires Sound(Now()) && open && (t in info ==> info[t] == Task(Nowhere, 0, false))
      modifies this`info, this`tasks, this`taskCount
      ensures Fine(Now()) && Kept(old(Now()), Now()) && Now() == Adopted(old(Now()), t)
      ensures tasks == old(tasks) + [t] && taskCount == old(taskCount) + 1
      ensures t in info && info[t].place.In? && info[t].cancels == (if cancelling then 1 else 0) && info == old(info)[t := info[t]]
    {
      AdoptSound(Now(), t);
      hide Sound, Fine, Kept, Adopted;
      PushBack(t);
    }

    method PushBack(t: nat)
      modifies this`info, this`tasks, this`taskCount
      ensures Now() == Adopted(old(Now()), t)
      ensures tasks == old(tasks) + [t] && taskCount == old(taskCount) + 1
      ensures info == old(info)[t := Task(In, if cancelling then 1 else 0, false)]
    {
      info := info[t := Task(In, if cancelling then 1 else 0, false)];
      tasks := tasks + [t];
      taskCount := taskCount + 1;
    }

    /** continuation(): a task has left, or the body never was one. The parent's resumption is queued, behind
        the destruction of the task, when nothing is left to wait for. */
    method Continuation(p: Option<nat>)
      requires Fine(Now()) && (p.Some? ==> open && p.value in info && info[p.value].place.Live())
      modifies this`info, this`tasks, this`taskCount, this`parent, this`open, this`queue, this`opening
      ensures Fine(Now()) && !Stuck(Now())
      ensures Now() == Closed(if p.Some? then Left(old(Now()), p.value) else old(Now()))
      ensures tasks == if p.Some? then Without(old(tasks), p.value) else old(tasks)
      ensures queue == old(queue) + (if p.Some? then [Destroy(p.value)] else [])
                                  + if old(parent) && tasks == [] && pending == 0 then [ResumeParent] else []
      ensures if old(parent) && tasks == [] && pending == 0 then !open && !parent else open == old(open) && parent == old(parent)
    {
      ghost var s := Now();
      if p.Some? { LeaveSound(s, p.value); }
      CloseSound(if p.Some? then Left(s, p.value) else s);
      hide Sound, Fine, Left, Closed;
      if p.Some? {
        Leave(p.value);
      }
      CloseIfEmpty();
    }

    method Leave(t: nat)
      requires t in info
      modifies this`info, this`tasks, this`taskCount, this`queue
      ensures Now() == Left(old(Now()), t)
      ensures tasks == Without(old(tasks), t) && queue == old(queue) + [Destroy(t)]
    {
      tasks := Without(tasks, t);
      taskCount := taskCount - 1;
      info := info[t := info[t].(place := Finished)];
      queue := queue + [Destroy(t)];
    }

    method CloseIfEmpty()
      modifies this`parent, this`open, this`queue, this`opening
      ensures Now() == Closed(old(Now()))
      ensures queue == old(queue) + if old(parent) && tasks == [] && pending == 0 then [ResumeParent] else []
      ensures if old(parent) && tasks == [] && pending == 0 then !open && !parent else open == old(open) && parent == old(parent)
    {
      if tasks == [] && pending == 0 && parent {
        parent := false;
        open := false;
        queue := queue + [ResumeParent];
        opening := false;
      }
    }

    // ----- cancellation and errors

    /** The loop over the tasks to be cancelled.  Each of them still has a frame, and none has ended as
        cancelled; one that has ended otherwise only gets a flag set. */
    method CancelBatch(depth: nat)
      requires Fine(Now()) && cancelling
      modifies this
      ensures Fine(Now()) && cancelling && batch == [] && Kept(old(Now().(batch := [])), Now())
      ensures forall t :: t in old(batch) ==> t in info && info[t].cancels == 1
      ensures asked == old(asked) + old(batch)
      decreases depth, 1
    {
      hide Fine, Sound, Kept, NextCancelled;
      ghost var s, all, done := Now(), batch, 0;
      KeptSelf(s);
      assert all == all[0..];
      while batch != []
        invariant Fine(Now()) && cancelling && Kept(s.(batch := batch), Now()) && done <= |all| && batch == all[done..]
        invariant forall i :: 0 <= i < done ==> all[i] in info && info[all[i]].cancels == 1
        invariant asked == old(asked) + all[..done]
        decreases |batch|
      {
        var t := batch[0];
        ghost var s0 := Now();
        NextSound(s0);
        assert info[t].cancels == 0 && !info[t].place.Nowhere? && !info[t].confirmed by { FrontFacts(s0); }
        CancelNext();
        ghost var s1 := Now();
        Environment(depth, !busy);
        done := done + 1;
        BatchStep(s.(batch := s0.batch), s0, Now(), all, done);
      }
    }

    /** cancel() of the first task of the batch. */
    method CancelNext()
      requires batch != [] && batch[0] in info
      modifies this`batch, this`info, this`asked
      ensures Now() == NextCancelled(old(Now())) && asked == old(asked) + [old(batch)[0]]
    {
      asked := asked + [batch[0]];
      var t := batch[0];
      batch := batch[1..];
      info := info[t := info[t].(cancels := 1)];
    }

    /** doCancel(), by whoever has just set the cancelling bit. Every task that is listed at the call gets
        its cancel(). */
    method DoCancel(depth: nat)
      requires Sound(Now().(cancelling := false, error := None, reports := [])) && cancelling && FirstError(Now())
      requires Stuck(Now()) ==> quiet > 0 || hasty > 0 || opening || transit != {}
      modifies this
      ensures Fine(Now()) && cancelling && Kept(old(Now()), Now())
      ensures forall t :: t in old(tasks) ==> t in info && info[t].cancels == 1
      ensures old(tasks) == [] ==> Now() == old(Now()) && ready == old(ready)
      ensures asked == old(asked) + if old(open) then old(tasks) else []
      decreases depth, 2
    {
      ghost var s := Now();
      BatchSound(s);
      KeptSelf(s);
      hide Fine, Sound, Kept, FirstError;
      if !open || tasks == [] {
        return;
      }
      batch := tasks;
      CancelBatch(depth);
    }

    /** cancel(): a nursery that is being cancelled already is left as it is. */
    method Cancel(depth: nat)
      requires Fine(Now())
      modifies this
      ensures Fine(Now()) && cancelling && Kept(old(Now()), Now())
      ensures old(cancelling) ==> unchanged(this)
      ensures !old(cancelling) ==> forall t :: t in old(tasks) ==> t in info && info[t].cancels == 1
      ensures old(tasks) == [] ==> Now() == old(Now()).(cancelling := true) && ready == old(ready)
      ensures !old(cancelling) ==> asked == old(asked) + if old(open) then old(tasks) else []
      decreases depth, 3
    {
      ghost var s := Now();
      KeptSelf(s);
      if cancelling {
        return;
      }
      CancellingSet(s);
      hide Fine, Sound, Kept, FirstError;
      cancelling := true;
      ghost var s1 := Now();
      DoCancel(depth);
      KeptTrans(s, s1, Now());
    }

    /** storeError(): the first error is kept, and the others are cancelled. */
    method StoreError(e: nat, depth: nat)
      requires Fine(Now()) && parent
      modifies this
      ensures Fine(Now()) && cancelling && Kept(old(Now()), Now()) && old(reports) + [e] <= reports
      ensures !old(cancelling) ==> forall t :: t in old(tasks) ==> t in info && info[t].cancels == 1
      ensures old(cancelling) ==> asked == old(asked)
      ensures !old(cancelling) ==> asked == old(asked) + if old(open) then old(tasks) else []
      decreases depth, 3
    {
      ghost var s := Now();
      var needCancel := !cancelling;
      ErrorStored(s, e);
      if needCancel { CancellingSet(s); }
      hide Fine, Sound, Kept, FirstError;
      if error.None? {
        error := Some(e);
      }
      reports := reports + [e];
      cancelling := true;
      ghost var s1 := Now();
      if needCancel {
        DoCancel(depth);
        KeptFacts(s1, Now());
        KeptTrans(s, s1, Now());
      }
    }

    // ----- the life of a task

    /** start() of a task without a start awaiter; a closed nursery fails an assertion. */
    method Start(t: nat) returns (ok: bool)
      requires Fine(Now()) && t !in info
      modifies this`info, this`tasks, this`taskCount, this`ready
      ensures Fine(Now()) && Kept(old(Now()), Now()) && (ok <==> open)
      ensures Now() == if ok then Adopted(old(Now()), t) else old(Now())
      ensures tasks == old(tasks) + if ok then [t] else []
      ensures ready == if ok then old(ready) + {t} else old(ready)
    {
      KeptSelf(Now());
      assert Sound(Now());
      hide Fine, Sound, Kept, Adopted;
      ok := open;
      if ok {
        Adopt(t);
        ready := ready + {t};
      }
    }

    /** The executor runs the next step of a task, at the end of which it awaits something. */
    method Step(t: nat)
      modifies this`ready
      ensures ready == old(ready) - {t} && Now() == old(Now())
    {
      ready := ready - {t};
    }

    /** What a task awaits is there: its next step is queued. */
    method Wake(t: nat)
      modifies this`ready
      ensures ready == old(ready) + {t} && Now() == old(Now())
    {
      ready := ready + {t};
    }

    /** A task is over: it reports its outcome, and leaves. It ends as cancelled only if it was cancelled, and
        its awaiter has confirmed that; otherwise it ends in a step.  The nursery must still have its executor. */
    method Finish(t: nat, outcome: Outcome, depth: nat)
      requires Fine(Now()) && t in info && info[t].place.In? && open
      requires outcome.Cancelled? ==> info[t].cancels == 1
      requires outcome.Cancelled? <==> t !in ready
      requires outcome.Error? ==> parent
      modifies this
      ensures Fine(Now()) && Kept(old(Now()), Now())
      ensures t in info && info[t].place.Finished? && (info[t].confirmed <==> outcome.Cancelled?)
      ensures outcome.Error? ==> old(reports) + [outcome.e] <= reports
      ensures outcome.Error? || outcome.CancelOthers? ==> cancelling
      ensures outcome.Value? || outcome.Cancelled? ==> Now() == Ended(old(Now()), t, outcome.Cancelled?) && ready == old(ready)
      ensures old(cancelling) ==> asked == old(asked)
      decreases depth, 5
    {
      ghost var s := Now();
      hide Fine, Sound, Kept, Ended, Reporting;
      Report(t, outcome, depth);
      ghost var s2 := Now();
      End(t, outcome.Cancelled?);
      if outcome.Value? || outcome.Cancelled? { EndedAtOnce(s, t, outcome.Cancelled?); }
      EndKeeps(s, s2, t, outcome.Cancelled?);
    }

    method Report(t: nat, outcome: Outcome, depth: nat)
      requires Fine(Now()) && t in info && info[t].place.In? && open && (outcome.Error? ==> parent)
      modifies this
      ensures Fine(Now()) && Kept(old(Now()), Now())
      ensures t in info && info[t].place.Over? && open && info[t].cancels >= old(info)[t].cancels && info[t].cancels <= 1
      ensures outcome.Error? ==> old(reports) + [outcome.e] <= reports
      ensures outcome.Error? || outcome.CancelOthers? ==> cancelling
      ensures outcome.Value? || outcome.Cancelled? ==> Now() == Reporting(old(Now()), t) && ready == old(ready)
      ensures old(cancelling) ==> asked == old(asked)
      decreases depth, 4
    {
      ghost var s := Now();
      ReportSound(s, t);
      hide Fine, Sound, Kept, Reporting;
      MoveOver(t);
      ghost var s1 := Now();
      assert t in s1.info && s1.info[t] == s.info[t].(place := Over) && s1.reports == s.reports by { ReportingFacts(s, t); }
      KeptSelf(s1);
      if outcome.Error? {
        StoreError(outcome.e, depth);
      } else if outcome.CancelOthers? {
        Cancel(depth);
      }
      KeptTrans(s, s1, Now());
      OverFacts(s1, Now(), t);
    }

    method MoveOver(t: nat)
      requires t in info
      modifies this`info
      ensures Now() == Reporting(old(Now()), t)
    {
      info := info[t := info[t].(place := Over)];
    }

    /** A task that has reported leaves. */
    method End(t: nat, confirmed: bool)
      requires Fine(Now()) && t in info && info[t].place.Over? && open && (confirmed ==> info[t].cancels == 1)
      modifies this`info, this`tasks, this`taskCount, this`parent, this`open, this`queue, this`opening
      ensures Fine(Now()) && Now() == Confirmed(Closed(Left(old(Now()), t)), t, confirmed)
    {
      ghost var s := Now();
      Continuation(Some(t));
      EndSound(s, t, confirmed);
      hide Fine, Sound, Closed, Left;
      info := info[t := info[t].(confirmed := confirmed)];
    }

    // ----- start awaiters

    /** await_suspend() of a start awaiter whose task has not signalled yet. The awaiter may have been
        cancelled before, and then cancels the task. */
    method Await(t: nat, early: bool)
      requires Fine(Now()) && t !in info
      modifies this`info, this`starting, this`pending, this`late, this`ready
      ensures Fine(Now()) && Kept(old(Now()), Now()) && Now() == Awaited(old(Now()), t, early)
      ensures pending == old(pending) + 1 && starting == old(starting) + {t} && info == old(info)[t := Task(Starting(early), if early then 1 else 0, false)]
      ensures ready == old(ready) + {t}
    {
      ghost var s := Now();
      ready := ready + {t};
      AwaitSound(s, t, early);
      hide Fine, Sound, Kept, Awaited;
      Hold(t, early);
    }

    method Hold(t: nat, early: bool)
      modifies this`info, this`starting, this`pending, this`late
      ensures Now() == Awaited(old(Now()), t, early)
      ensures pending == old(pending) + 1 && starting == old(starting) + {t} && info == old(info)[t := Task(Starting(early), if early then 1 else 0, false)]
    {
      NoteHeld(t, early);
      pending, starting := pending + 1, starting + {t};
    }

    method NoteHeld(t: nat, early: bool)
      modifies this`info, this`late
      ensures Now().(pending := pending + 1, starting := starting + {t}) == Awaited(old(Now()), t, early)
      ensures info == old(info)[t := Task(Starting(early), if early then 1 else 0, false)]
    {
      late := late + if open then 0 else 1;
      info := info[t := Task(Starting(early), if early then 1 else 0, false)];
    }

    /** await_cancel() of a start awaiter: its task gets its one cancel(), and is not handed over any more. */
    method CancelStart(t: nat, depth: nat)
      requires Fine(Now()) && t in info && info[t].place == Starting(false)
      modifies this
      ensures Fine(Now()) && Kept(old(Now()), Now())
      ensures t in info && info[t].cancels == 1 && (info[t].place == Starting(true) || info[t].place.Nowhere?)
      ensures busy ==> Wary(old(Now()), old(ready), Now(), ready)
      ensures old(cancelling) ==> asked == old(asked)
      decreases depth, 1
    {
      ghost var s := Now();
      hide Fine, Sound, Kept, Wary, StartCancelled;
      GiveUp(t);
      ghost var s1 := Now();
      Environment(depth, !busy);
      KeptTrans(s, s1, Now());
      CancelledStart(s, s1, Now(), t);
      if busy { WaryTrans(s, old(ready), s1, old(ready), Now(), ready); }
    }

    /** The beginning of it. */
    method GiveUp(t: nat)
      requires Fine(Now()) && t in info && info[t].place == Starting(false)
      modifies this`info
      ensures Fine(Now()) && Kept(old(Now()), Now()) && Now() == StartCancelled(old(Now()), t)
      ensures Wary(old(Now()), ready, Now(), ready)
    {
      ghost var s := Now();
      FactsOf(s, t);
      UpdateSound(s, t, Task(Starting(true), 1, false));
      GiveUpGuards(s, ready, t);
      hide Fine, Sound, Kept, Wary;
      info := info[t := Task(Starting(true), 1, false)];
    }

    /** The start awaiter lets go of its task. */
    method LetItGo(t: nat, task: Task)
      requires t in info && pending > 0
      modifies this`info, this`starting, this`pending, this`transit
      ensures Now() == LetGo(old(Now()), t, task)
    {
      info := info[t := task];
      starting := starting - {t};
      pending := pending - 1;
      if task.place.InTransit() {
        transit := transit + {t};
      }
    }

    /** The task itself signals that it has started, or somebody else while it waits for its next step: to
        cancel it would only set a flag.  Unless the start awaiter has been cancelled, it hands the task over
        to the nursery; a closed nursery fails an assertion. */
    method Signal(t: nat) returns (ok: bool)
      requires Fine(Now()) && t in info && info[t].place.Starting? && t in ready
      modifies this`info, this`starting, this`pending, this`transit, this`tasks, this`taskCount
      ensures Fine(Now()) && Kept(old(Now()), Now()) && (ok <==> old(info)[t].place.cancelled || open)
      ensures Now() == if ok && !old(info)[t].place.cancelled then Adopted(LetGo(old(Now()), t, Task(Nowhere, 0, false)), t) else old(Now())
    {
      ghost var s := Now();
      KeptSelf(s);
      ok := info[t].place.cancelled || open;
      if info[t].place.cancelled || !open {
        return;
      }
      SignalSound(s, t);
      hide Fine, Sound, Kept, LetGo, Adopted;
      LetItGo(t, Task(Nowhere, 0, false));
      PushBack(t);
    }

    /** Somebody else signals the start of a task that is suspended. If the nursery is being cancelled, it
        cancels the task before it lists it, and then anything may happen first.  The task is overtaken if
        the nursery is closed by the time it is listed, and it has not ended; if no task takes a step
        meanwhile, that takes a task that is exposed. */
    method HandOver(t: nat, depth: nat) returns (ok: bool, ghost overtaken: bool)
      requires Fine(Now()) && t in info && info[t].place.Starting? && t !in ready && (kind.careful ==> !cancelling)
      modifies this
      ensures Fine(Now()) && Kept(old(Now()), Now()) && (ok <==> old(info)[t].place.cancelled || old(open))
      ensures !ok || old(info)[t].place.cancelled ==> unchanged(this) && !overtaken
      ensures ok && !old(info)[t].place.cancelled ==>
                && t in tasks && t in info && (info[t].place.In? || info[t].place == EndedEarly(true))
                && (overtaken <==> !open && info[t].place.In?) && (overtaken ==> overrun)
      ensures !old(cancelling) ==> !overtaken && overrun == old(overrun)
      ensures busy && overtaken ==> Exposed(old(Now()), old(ready), t)
      ensures busy ==> Wary(old(Now()), old(ready), Now(), ready)
      ensures old(cancelling) ==> asked == old(asked)
      decreases depth, 2
    {
      ghost var s := Now();
      KeptSelf(s);
      WarySelf(s, ready);
      overtaken := false;
      ok := info[t].place.cancelled || open;
      if info[t].place.cancelled || !open {
        return;
      }
      if !cancelling {
        SignalSound(s, t);
        NothingGuarded(s, ready);
        hide Fine, Sound, Kept, Wary;
        LetItGo(t, Task(Nowhere, 0, false));
        PushBack(t);
        return;
      }
      hide Fine, Sound, Kept, Wary, Exposed;
      overtaken := HandOverCancelled(t, depth);
    }

    /** The part of it for a nursery that is being cancelled. */
    method HandOverCancelled(t: nat, depth: nat) returns (ghost overtaken: bool)
      requires Fine(Now()) && open && cancelling && !kind.careful && t in info && info[t].place == Starting(false) && t !in ready
      modifies this
      ensures Fine(Now()) && Kept(old(Now()), Now())
      ensures t in tasks && t in info && (info[t].place.In? || info[t].place == EndedEarly(true))
      ensures (overtaken <==> !open && info[t].place.In?) && (overtaken ==> overrun)
      ensures busy && overtaken ==> Exposed(old(Now()), old(ready), t)
      ensures busy ==> Wary(old(Now()), old(ready), Now(), ready)
      ensures old(cancelling) ==> asked == old(asked)
      decreases depth, 1
    {
      hide Fine, Sound, Kept, LetGo, Wary, Exposed, Guarded, Enlisted, HeldOpen, MovedOn;
      ghost var s := Now();
      CancelHanded(t, depth);
      ghost var s2 := Now();
      overtaken := !open && info[t].place.Handed?;
      if busy { HandGuards(s, old(ready), LetGo(s, t, Task(Handed, 1, false)), s2, ready, t); }
      Enlist(t);
      HandKeeps(s, s2, Now(), t);
    }

    /** cancel() of a task that is being handed over. */
    method CancelHanded(t: nat, depth: nat)
      requires Fine(Now()) && open && cancelling && !kind.careful && t in info && info[t].place == Starting(false)
      modifies this
      ensures Fine(Now()) && Kept(old(Now()).(transit := transit), Now()) && transit == old(transit) + {t} && t !in old(transit)
      ensures t in info && info[t].place.InTransit()
      ensures busy ==> Wary(LetGo(old(Now()), t, Task(Handed, 1, false)), old(ready), Now(), ready)
      ensures old(cancelling) ==> asked == old(asked)
      decreases depth, 0, 1
    {
      ghost var s := Now();
      HandSound(s, t);
      hide Fine, Sound, Kept, LetGo, Wary, MovedOn;
      BeginHandOver(t);
      ghost var s1 := Now();
      Environment(depth, !busy);
      KeptTrans(s.(transit := s1.transit), s1, Now());
      HandedStill(s, s1, Now(), t);
    }

    /** The beginning of adopt(), for a task that it is going to cancel. */
    method BeginHandOver(t: nat)
      requires Fine(Now()) && cancelling && !kind.careful && t in info && info[t].place == Starting(false)
      modifies this`info, this`starting, this`pending, this`transit
      ensures Fine(Now()) && Now() == LetGo(old(Now()), t, Task(Handed, 1, false))
    {
      HandSound(Now(), t);
      hide Fine, Sound, LetGo;
      LetItGo(t, Task(Handed, 1, false));
    }

    /** The end of adopt(), for a task that it has cancelled: from here on a live task is listed on a closed
        nursery exactly if that was so before, or the nursery has been closed and this task has not ended. */
    method Enlist(t: nat)
      requires Fine(Now()) && t in transit && t in info
      modifies this`info, this`tasks, this`taskCount, this`transit, this`overrun
      ensures Fine(Now()) && Now() == Enlisted(old(Now()), t)
      ensures tasks == old(tasks) + [t] && taskCount == old(taskCount) + 1 && transit == old(transit) - {t}
      ensures overrun <==> old(overrun) || (!open && old(info)[t].place.Handed?)
    {
      ghost var s := Now();
      EnlistSound(s, t);
      hide Fine, Sound, Kept, Enlisted;
      PushBackHanded(t);
    }

    method PushBackHanded(t: nat)
      requires t in info
      modifies this`info, this`tasks, this`taskCount, this`transit, this`overrun
      ensures Now() == Enlisted(old(Now()), t)
      ensures tasks == old(tasks) + [t] && taskCount == old(taskCount) + 1 && transit == old(transit) - {t}
    {
      NoteListed(t);
      tasks, taskCount := tasks + [t], taskCount + 1;
    }

    method NoteListed(t: nat)
      requires t in info
      modifies this`info, this`transit, this`overrun
      ensures Now().(tasks := old(tasks) + [t], taskCount := old(taskCount) + 1) == Enlisted(old(Now()), t)
      ensures transit == old(transit) - {t}
      ensures tasks == old(tasks) && taskCount == old(taskCount)
    {
      var live := info[t].place.Handed?;
      overrun, transit := overrun || (live && !open), transit - {t};
      info := info[t := info[t].(place := if live then In else EndedEarly(true))];
    }

    /** A task that is being handed over ends, by confirming that it is cancelled. The nursery must still
        have its executor. */
    method EndEarly(t: nat)
      requires Fine(Now()) && t in info && info[t].place.Handed? && t !in ready && open
      modifies this`info, this`taskCount, this`short, this`queue, this`hasty, this`parent, this`open, this`opening
      ensures Fine(Now()) && Kept(old(Now()), Now()) && Now() == Closed(EndsInTransit(old(Now()), t))
    {
      ghost var s := Now();
      EndsSound(s, t);
      CloseSound(EndsInTransit(s, t));
      hide Fine, Sound, Kept, Closed, EndsInTransit;
      CountOut(t);
      ghost var s1 := Now();
      CloseIfEmpty();
      ContinueKeeps(s1, Now());
      KeptTrans(s, s1, Now());
    }

    method CountOut(t: nat)
      modifies this`info, this`taskCount, this`short, this`queue, this`hasty
      ensures Now() == EndsInTransit(old(Now()), t)
    {
      NoteEarly(t);
      taskCount, queue := taskCount - 1, queue + [Destroy(t)];
    }

    method NoteEarly(t: nat)
      modifies this`info, this`short, this`hasty
      ensures Now() == old(Now()).(info := With(old(Now()), t, Task(EndedEarly(false), 1, true)), short := old(short) + {t}, hasty := old(hasty) + 1)
    {
      info, short, hasty := info[t := Task(EndedEarly(false), 1, true)], short + {t}, hasty + 1;
    }

    /** The task ends while its start awaiter still holds it.  This does not look whether the nursery can
        close: it leaves the parent waiting for nothing exactly if the task was all there was. */
    method FinishStart(t: nat, confirmed: bool)
      requires Fine(Now()) && t in info && info[t].place.Starting? && (confirmed ==> info[t].cancels == 1)
      requires confirmed <==> t !in ready
      modifies this`info, this`starting, this`pending, this`quiet, this`transit
      ensures Fine(Now()) && Kept(old(Now()), Now())
      ensures Now() == Quieted(old(Now()), t, confirmed)
      ensures pending == old(pending) - 1 && starting == old(starting) - {t} && info == old(info)[t := Task(Nowhere, old(info)[t].cancels, confirmed)]
      ensures Stuck(Now()) <==> parent && tasks == [] && old(starting) == {t}
    {
      ghost var s := Now();
      QuietSound(s, t, confirmed);
      QuietStuck(s, t, confirmed);
      hide Fine, Sound, Kept, Quieted;
      LetQuietlyGo(t, confirmed);
    }

    method LetQuietlyGo(t: nat, confirmed: bool)
      requires t in info && pending > 0
      modifies this`info, this`starting, this`pending, this`quiet, this`transit
      ensures Now() == Quieted(old(Now()), t, confirmed)
      ensures pending == old(pending) - 1 && starting == old(starting) - {t} && info == old(info)[t := Task(Nowhere, old(info)[t].cancels, confirmed)]
    {
      LetItGo(t, Task(Nowhere, info[t].cancels, confirmed));
      quiet := quiet + 1;
    }

    // ----- everything together

    /** What may happen while a task is being cancelled and, with steps, when the executor runs. */
    method Environment(depth: nat, steps: bool)
      requires Fine(Now())
      modifies this
      ensures Fine(Now()) && Kept(old(Now()), Now())
      ensures busy && !steps ==> Wary(old(Now()), old(ready), Now(), ready)
      ensures old(cancelling) ==> asked == old(asked)
      decreases depth, 0, 0
    {
      hide Fine, Sound, Kept, Wary;
      ghost var s := Now();
      KeptSelf(s);
      WarySelf(s, ready);
      var turns: int := *;
      while turns > 0 && depth > 0
        invariant Fine(Now()) && Kept(s, Now())
        invariant busy && !steps ==> Wary(s, old(ready), Now(), ready)
        invariant old(cancelling) ==> cancelling && asked == old(asked)
        decreases turns
      {
        ghost var s1, ready1 := Now(), ready;
        var who: int, id: int := *, *;
        var t: nat := if id < 0 then -id else id;
        if who < 0 {
          ParentActs(t, depth - 1, steps);
        } else if who == 0 {
          StarterActs(t, depth - 1, steps);
        } else {
          TaskActs(t, depth - 1, steps);
        }
        KeptFacts(s1, Now());
        KeptTrans(s, s1, Now());
        if busy && !steps { WaryTrans(s, old(ready), s1, ready1, Now(), ready); }
        turns := turns - 1;
      }
    }

    /** The parent opens its scope in a step; nobody else knows the nursery before that. */
    method ParentActs(t: nat, depth: nat, steps: bool)
      requires Fine(Now())
      modifies this
      ensures Fine(Now()) && Kept(old(Now()), Now())
      ensures busy && !steps ==> Wary(old(Now()), old(ready), Now(), ready)
      ensures old(cancelling) ==> asked == old(asked)
      decreases depth, 6
    {
      hide Fine, Sound, Kept, Wary;
      ghost var s := Now();
      WarySelf(s, ready);
      var choice: int := *;
      if steps && choice == 0 && kind.scoped && bound == 0 && !open {
        Open();
      } else if steps && choice == 1 && opening && t !in info {
        BodyStarts(t);
      } else if steps && choice == 2 && opening {
        var outcome: Outcome := *;
        BodyReady(outcome, depth);
      } else if choice == 3 && !kind.scoped && !parent {
        JoinGuards(s, ready);
        var _ := Join();
      } else {
        CancelGuards(s, ready);
        Cancel(depth);
      }
    }

    method StarterActs(t: nat, depth: nat, steps: bool)
      requires Fine(Now())
      modifies this
      ensures Fine(Now()) && Kept(old(Now()), Now())
      ensures busy && !steps ==> Wary(old(Now()), old(ready), Now(), ready)
      ensures old(cancelling) ==> asked == old(asked)
      decreases depth, 6
    {
      hide Fine, Sound, Kept, Wary;
      ghost var s := Now();
      KeptSelf(s);
      WarySelf(s, ready);
      var choice: int, flag: bool := *, *;
      if t !in info {
        AwaitGuards(s, ready, t, flag);
        Await(t, flag);
      } else if info[t].place.Starting? {
        if choice == 0 && !info[t].place.cancelled {
          CancelStart(t, depth);
        } else if choice == 1 && t !in ready && info[t].cancels == 1 {
          QuietGuards(s, ready, t);
          FinishStart(t, true);
        } else if choice == 1 && steps && t in ready {
          FinishStart(t, false);
        } else if choice == 2 && t !in ready && (kind.careful ==> !cancelling) {
          var _, _ := HandOver(t, depth);
        } else if t in ready {
          SignalGuards(s, ready, t);
          var _ := Signal(t);
        }
      }
    }

    method TaskActs(t: nat, depth: nat, steps: bool)
      requires Fine(Now())
      modifies this
      ensures Fine(Now()) && Kept(old(Now()), Now())
      ensures busy && !steps ==> Wary(old(Now()), old(ready), Now(), ready)
      ensures old(cancelling) ==> asked == old(asked)
      decreases depth, 6
    {
      hide Fine, Sound, Kept, Wary;
      ghost var s := Now();
      KeptSelf(s);
      WarySelf(s, ready);
      var choice: int, outcome: Outcome := *, *;
      if t !in info {
        StartGuards(s, ready, t);
        var _ := Start(t);
      } else if choice == 0 {
        WakeGuards(s, ready, t);
        Wake(t);
      } else if choice == 1 && steps {
        Step(t);
      } else if open && info[t].place.In? && t !in ready && info[t].cancels == 1 {
        EndGuards(s, ready, t);
        Finish(t, Cancelled, depth);
      } else if steps && open && info[t].place.In? && t in ready && !outcome.Cancelled? && (outcome.Error? ==> parent) {
        Finish(t, outcome, depth);
      } else if open && info[t].place.Handed? && t !in ready {
        EarlyGuards(s, ready, t);
        EndEarly(t);
      }
    }

    /** The executor runs the next callback of the nursery. It does not while it goes through a batch, or
        while a task is being handed over. */
    method RunCallback()
      requires Fine(Now()) && batch == [] && transit == {} && queue != []
      modifies this`queue, this`info, this`resumes, this`tasks, this`short
      ensures Fine(Now()) && batch == old(batch) && transit == old(transit) && queue == old(queue)[1..]
      ensures old(queue)[0].Destroy? ==>
                var t := old(queue)[0].t;
                && t in info && info[t].place.Nowhere? && t in old(info) && old(info)[t].place.ToDestroy() && info == old(info)[t := info[t]]
                && tasks == if old(info)[t].place.EndedEarly? then Without(old(tasks), t) else old(tasks)
      ensures match old(queue)[0]
              case Destroy(t) => t in old(info) && Now() == Destroyed(old(Now()), t)
              case ResumeParent => Now() == ParentResumed(old(Now())) && resumes == 1 && queue == [] && (late == 0 ==> pending == 0)
                                   && (!overrun ==> tasks == [] && forall u :: u in info ==> info[u].place.Starting? || info[u].place.Nowhere?)
    {
      ghost var s := Now();
      var cb := queue[0];
      if cb.Destroy? { DestroySound(s); } else { ResumeSound(s); }
      hide Fine, Sound, Destroyed, Without;
      if cb.Destroy? {
        DestroyFrame(cb.t);
      } else {
        queue := queue[1..];
        resumes := resumes + 1;
      }
    }

    method DestroyFrame(t: nat)
      requires t in info && queue != []
      modifies this`queue, this`info, this`tasks, this`short
      ensures Now() == Destroyed(old(Now()), t) && queue == old(queue)[1..]
      ensures t in info && info[t].place.Nowhere? && info == old(info)[t := info[t]]
      ensures tasks == if old(info)[t].place.EndedEarly? then Without(old(tasks), t) else old(tasks)
    {
      queue := queue[1..];
      if info[t].place.EndedEarly? {
        tasks := Without(tasks, t);
      }
      info, short := info[t := info[t].(place := Nowhere)], short - {t};
    }

    /** All starts but that of c end: they are cancelled, if they have not been, and confirm it. */
    method FinishStarts(c: nat)
      requires Fine(Now()) && cancelling && NoneStays(Now(), ready) && NoStartStays(Now(), ready)
      modifies this`info, this`starting, this`pending, this`quiet, this`transit
      ensures Fine(Now()) && NoneStays(Now(), ready) && transit == old(transit) && starting == old(starting) * {c}
      ensures forall u :: u in old(info) && (!old(info)[u].place.Starting? || u == c) ==> u in info && info[u] == old(info)[u]
    {
      hide Fine, Sound, Kept, Wary, Quieted, NoneStays, NoStartStays;
      while exists u :: u in starting && u != c
        invariant Fine(Now()) && NoneStays(Now(), ready) && NoStartStays(Now(), ready)
        invariant transit == old(transit) && starting <= old(starting) && (c in old(starting) ==> c in starting)
        invariant forall u :: u in old(info) && (!old(info)[u].place.Starting? || u == c) ==> u in info && info[u] == old(info)[u]
        decreases |starting|
      {
        var u :| u in starting && u != c;
        StartFactsOf(Now(), ready, u);
        if !info[u].place.cancelled {
          GiveUp(u);
        }
        assert info[u].place == Starting(true);
        EndingStart(Now(), ready, u);
        FinishStart(u, true);
      }
    }

    /** All tasks end: with a parent waiting, and no starts, the last one closes the nursery. */
    method FinishTasks()
      requires Fine(Now()) && cancelling && open && NoneStays(Now(), ready) && (parent ==> tasks != [] && pending == 0)
      modifies this
      ensures Fine(Now()) && tasks == [] && transit == old(transit) && ready == old(ready) && parent == false
      ensures if old(parent) then !open && ResumeParent in queue else open
      ensures forall u :: u in old(info) && old(info)[u].place.InTransit() ==> u in info && info[u] == old(info)[u]
    {
      hide Fine, Sound, Kept, Wary, Without, Left, NoneStays;
      while tasks != []
        invariant Fine(Now()) && cancelling && NoneStays(Now(), ready) && transit == old(transit) && ready == old(ready)
        invariant if old(parent) then (if tasks == [] then !open && !parent && ResumeParent in queue else open && parent && pending == 0)
                  else open && !parent
        invariant forall u :: u in old(info) && old(info)[u].place.InTransit() ==> u in info && info[u] == old(info)[u]
        decreases |tasks|
      {
        var u := tasks[0];
        EndingTask(Now(), ready, u);
        Finish(u, Cancelled, 0);
      }
    }
  }

  // ----- whole runs

  /** Any run of a nursery from its beginning. */
  method AnyRun(kind: Kind, busy: bool, steps: nat) returns (n: Nursery)
    ensures Fine(n.Now()) && n.resumes <= 1 && (kind.careful ==> !n.overrun && n.hasty == 0)
    ensures n.resumes == 1 && !n.overrun ==>
              n.tasks == [] && !n.open && forall t :: t in n.info ==> n.info[t].place.Starting? || n.info[t].place.Nowhere?
    ensures (n.resumes == 1 || ResumeParent in n.queue) && n.late == 0 ==> n.pending == 0
    ensures ResumeParent in n.queue ==>
              n.queue[|n.queue| - 1] == ResumeParent && (!n.overrun ==> forall t :: t in n.info ==> !n.info[t].place.Live())
    ensures forall t :: t in n.info ==> n.info[t].cancels <= 1 && (n.info[t].confirmed ==> n.info[t].cancels == 1)
    ensures n.cancelling ==> forall t :: t in n.tasks ==> t in n.info && n.info[t].cancels == 1
    ensures n.error == if n.reports == [] then None else Some(n.reports[0])
    ensures Stuck(n.Now()) ==> n.quiet > 0 || n.hasty > 0 || n.opening
  {
    hide Fine, Sound, Kept;
    n := new Nursery(kind, busy);
    var left := steps;
    while left > 0
      invariant Fine(n.Now()) && n.batch == [] && n.transit == {} && n.kind == kind && fresh(n)
    {
      var callback: bool := *;
      if callback && n.queue != [] {
        n.RunCallback();
      } else {
        ghost var s := n.Now();
        n.Environment(steps, true);
        KeptFacts(s, n.Now());
      }
      left := left - 1;
    }
    RunFacts(n.Now());
  }

  lemma RunFacts(s: State)
    requires Fine(s) && s.batch == [] && s.transit == {}
    ensures s.resumes <= 1 && (s.kind.careful ==> !s.overrun && s.hasty == 0)
    ensures s.resumes == 1 && !s.overrun ==>
              s.tasks == [] && !s.open && forall t :: t in s.info ==> s.info[t].place.Starting? || s.info[t].place.Nowhere?
    ensures (s.resumes == 1 || ResumeParent in s.queue) && s.late == 0 ==> s.pending == 0
    ensures ResumeParent in s.queue ==>
              s.queue[|s.queue| - 1] == ResumeParent && (!s.overrun ==> forall t :: t in s.info ==> !s.info[t].place.Live())
    ensures forall t :: t in s.info ==> s.info[t].cancels <= 1 && (s.info[t].confirmed ==> s.info[t].cancels == 1)
    ensures s.cancelling ==> forall t :: t in s.tasks ==> t in s.info && s.info[t].cancels == 1
    ensures s.error == if s.reports == [] then None else Some(s.reports[0])
    ensures Stuck(s) ==> s.quiet > 0 || s.hasty > 0 || s.opening
  {
    forall t | t in s.info
      ensures s.info[t].cancels <= 1 && (s.info[t].confirmed ==> s.info[t].cancels == 1)
      ensures s.cancelling && t in s.tasks ==> s.info[t].cancels == 1
      ensures s.resumes == 1 && !s.overrun ==> s.info[t].place.Starting? || s.info[t].place.Nowhere?
    {
      FactsOf(s, t);
      assert s.resumes == 1 ==> Destroy(t) !in s.queue;
    }
    assert s.tasks != [] ==> s.tasks[0] in s.info && s.info[s.tasks[0]].place.Listed();
  }

  // ----- what goes wrong

  /** join() does not look at starts: it may close the nursery before a task is handed over to it. */
  method JoinClosesOverStart() returns (n: Nursery, ok: bool)
    ensures !ok && !n.open && n.pending == 1
  {
    hide Fine, Sound, Kept;
    n := new Nursery(Kind(false, true), true);
    n.Await(0, false);
    var suspends := n.Join();
    ok := n.Signal(0);
  }

  /** A start that ends without handing over its task does not close the nursery. */
  method LeftOpenByQuietStart() returns (n: Nursery)
    ensures Stuck(n.Now()) && n.queue == [Destroy(0)]
  {
    hide Fine, Sound, Kept, Without;
    n := new Nursery(Kind(true, true), true);
    n.Open();
    n.BodyStarts(0);
    n.Await(1, false);
    WithoutOnly(0);
    assert n.starting == {1} && n.parent && n.tasks == [0];
    n.Finish(0, Value, 0);
    assert n.tasks == [] && n.starting == {1} && n.parent;
    n.FinishStart(1, false);
  }

  /** A nursery that was cancelled before its body started, with a start. */
  method CancelledWithStart() returns (n: Nursery)
    ensures fresh(n) && Fine(n.Now()) && n.kind == Kind(true, false) && n.open && n.parent && n.cancelling && !n.overrun
    ensures n.tasks == [0] && n.pending == 1 && n.queue == [] && n.batch == [] && n.transit == {} && n.starting == {1} && n.quiet == 0
    ensures n.info == map[0 := Task(In, 1, false), 1 := Task(Starting(false), 0, false)] && n.ready == {} && n.busy
  {
    hide Fine, Sound, Kept;
    n := new Nursery(Kind(true, false), true);
    n.Open();
    n.Cancel(0);
    n.BodyStarts(0);
    n.Await(1, false);
    n.Step(0);
    n.Step(1);
    assert n.ready == {};
  }

  lemma WithoutOnly(x: nat)
    ensures Without([x], x) == []
  {
    assert Without([x], x) == [] + Without([], x);
  }

  lemma WithoutFirst(x: nat, y: nat)
    requires x != y
    ensures Without([x, y], x) == [y]
  {
    assert Without([x, y], x) == [] + Without([y], x) && Without([y], x) == [y] + Without([], x);
  }

  /** A task that is handed over while it is suspended is cancelled before it is listed.  If the other task
      ends meanwhile, the nursery closes on top of it. */
  method ClosesOverHandedTask() returns (n: Nursery)
    ensures n.overrun && n.queue == [Destroy(0), ResumeParent] && n.tasks == [1] && 1 in n.info && n.info[1].place.In?
  {
    n := CancelledWithStart();
    hide Fine, Sound, Kept, Without;
    WithoutOnly(0);
    n.BeginHandOver(1);
    n.Finish(0, Cancelled, 0);  // inside the cancel() of task 1
    n.Enlist(1);
  }

  /** With no task in it, a nursery can still be closed by one that ends while it is being handed over. */
  method LastEnds(n: Nursery, t: nat)
    requires Fine(n.Now()) && n.cancelling && n.open && n.parent && n.tasks == [] && !n.kind.careful
    requires NoneStays(n.Now(), n.ready) && NoStartStays(n.Now(), n.ready) && exists c :: c != t && MayEnd(n.Now(), n.ready, c)
    requires t in n.transit && t in n.info && n.info[t].place.Handed?
    modifies n
    ensures Fine(n.Now()) && !n.open && ResumeParent in n.queue && t in n.transit && t in n.info && n.info[t].place.Handed?
  {
    hide Fine, Sound, Kept, Wary, NoneStays, NoStartStays, LetGo, Closed;
    LastToEnd(n.Now(), n.ready, t);
    var c :| c in n.info && c != t && c !in n.ready && (n.info[c].place.Handed? || n.info[c].place == Starting(false));
    n.FinishStarts(c);
    if n.info[c].place.Starting? {
      LastStart(n.Now(), c);
      n.BeginHandOver(c);
      LastOfAll(n.Now(), c);
      n.EndEarly(c);
      n.Enlist(c);
    } else {
      assert n.starting == {};
      NoStarts(n.Now());
      LastOfAll(n.Now(), c);
      n.EndEarly(c);
    }
  }

  /** So it is for any task that is exposed: all other tasks and starts may end first, by confirming that they
      are cancelled, and the last of them closes the nursery; or else a parent joins it, and need not wait. */
  method MayBeOvertaken(n: Nursery, t: nat)
    requires Fine(n.Now()) && !n.kind.careful && Exposed(n.Now(), n.ready, t)
    modifies n
    ensures Fine(n.Now()) && n.overrun && !n.open && t in n.info && n.info[t].place.In?
    ensures old(n.parent) ==> ResumeParent in n.queue
  {
    hide Fine, Sound, Kept, Wary, Exposed, NoneStays, NoStartStays, LetGo, Closed;
    ghost var s := n.Now();
    ExposedFacts(s, n.ready, t);
    HandedFacts(s, n.ready, t);
    n.BeginHandOver(t);
    // all this inside the cancel() of the task
    if !n.parent {
      n.FinishTasks();
      var _ := n.Join();
    } else if n.tasks != [] {
      n.FinishStarts(t);
      assert n.starting == {};
      NoStarts(n.Now());
      n.FinishTasks();
    } else {
      LastEnds(n, t);
    }
    n.Enlist(t);
  }

  /** If it ends itself before it is listed, it keeps the nursery from closing when the last task leaves. */
  method LeftOpenByHastyTask() returns (n: Nursery)
    ensures Stuck(n.Now()) && n.quiet == 0 && n.queue == [Destroy(0)]
  {
    n := CancelledWithStart();
    hide Fine, Sound, Kept, Without;
    WithoutOnly(1);
    n.BeginHandOver(1);
    n.EndEarly(1);
    n.Enlist(1);
    assert n.tasks == [0, 1] && n.info[1].place == EndedEarly(true) && n.queue == [Destroy(1)] && n.pending == 0;
    WithoutFirst(0, 1);
    n.Finish(0, Cancelled, 0);
    assert n.tasks == [1] && n.queue == [Destroy(1), Destroy(0)] && n.parent;
    n.RunCallback();
  }

  ghost predicate NoneStays(s: State, ready: set<nat>) {
    forall u :: !Stays(s, ready, u)
  }

  ghost predicate NoStartStays(s: State, ready: set<nat>) {
    forall u :: !StartStays(s, ready, u)
  }

  lemma StartFactsOf(s: State, ready: set<nat>, u: nat)
    requires Fine(s) && u in s.starting && s.cancelling && NoneStays(s, ready) && NoStartStays(s, ready)
    ensures u in s.info && s.info[u].place.Starting? && u !in ready
    ensures !s.info[u].place.cancelled ==> var s' := StartCancelled(s, u); NoneStays(s', ready) && NoStartStays(s', ready)
  {
    assert u in s.info && !StartStays(s, ready, u);
    if !s.info[u].place.cancelled {
      var s' := StartCancelled(s, u);
      forall v ensures !Stays(s', ready, v) && !StartStays(s', ready, v) {
        assert !Stays(s, ready, v) && !StartStays(s, ready, v);
      }
    }
  }

  lemma EndingStart(s: State, ready: set<nat>, u: nat)
    requires Fine(s) && u in s.starting && u in s.info && s.info[u].place == Starting(true) && u !in ready
    requires NoneStays(s, ready) && NoStartStays(s, ready)
    ensures s.info[u].cancels == 1 && s.pending > 0
    ensures var s' := Quieted(s, u, true);
            && NoneStays(s', ready) && NoStartStays(s', ready) && s'.starting == s.starting - {u} && s'.transit == s.transit
            && s'.info == s.info[u := s'.info[u]] && |s'.starting| < |s.starting|
  {
    FactsOf(s, u);
    PlaceCounts(s);
    PutCounts(s.starting, u);
    var s' := Quieted(s, u, true);
    forall v ensures !Stays(s', ready, v) && !StartStays(s', ready, v) {
      assert !Stays(s, ready, v) && !StartStays(s, ready, v);
    }
  }

  lemma EndingTask(s: State, ready: set<nat>, u: nat)
    requires Fine(s) && s.cancelling && u in s.tasks && NoneStays(s, ready)
    ensures u in s.info && s.info[u].place.In? && u !in ready && s.info[u].cancels == 1
    ensures var s' := Ended(s, u, true); NoneStays(s', ready) && |s'.tasks| < |s.tasks| && s'.transit == s.transit
                                         && s'.info == s.info[u := s'.info[u]] && s'.cancelling
    ensures var s1, s' := Left(s, u), Ended(s, u, true); s'.tasks == s1.tasks && s'.pending == s.pending
    ensures var s' := Ended(s, u, true);
            if s.parent && s.pending == 0 && s'.tasks == [] then !s'.open && !s'.parent && ResumeParent in s'.queue
            else s'.open == s.open && s'.parent == s.parent
  {
    FactsOf(s, u);
    PlaceCounts(s);
    WithoutOne(s.tasks, u);
    assert !Stays(s, ready, u);
    var s' := Ended(s, u, true);
    forall v ensures !Stays(s', ready, v) {
      assert !Stays(s, ready, v);
    }
  }

  lemma NoStarts(s: State)
    requires Fine(s) && s.starting == {}
    ensures s.pending == 0
  {
    PlaceCounts(s);
  }

  lemma HandedFacts(s: State, ready: set<nat>, t: nat)
    requires Fine(s) && Exposed(s, ready, t)
    ensures var s1 := LetGo(s, t, Task(Handed, 1, false));
            && t in s1.transit && t in s1.info && s1.info[t] == Task(Handed, 1, false) && t !in s1.starting && t !in ready
            && s1.parent == s.parent && s1.open && s1.cancelling && s1.kind == s.kind
            && NoneStays(s1, ready) && (s1.parent ==> NoStartStays(s1, ready) && exists c :: c != t && MayEnd(s1, ready, c))
  {
    ExposedFacts(s, ready, t);
    FactsOf(s, t);
    var s1 := LetGo(s, t, Task(Handed, 1, false));
    forall u ensures !Stays(s1, ready, u) && (s.parent ==> !StartStays(s1, ready, u)) {
      assert !Stays(s, ready, u) && (s.parent ==> !StartStays(s, ready, u));
    }
    if s.parent {
      var c :| c != t && MayEnd(s, ready, c);
      assert MayEnd(s1, ready, c);
    }
  }

  lemma LastToEnd(s: State, ready: set<nat>, t: nat)
    requires Fine(s) && s.tasks == [] && exists c :: c != t && MayEnd(s, ready, c)
    ensures exists c :: c in s.info && c != t && c !in ready && (s.info[c].place.Handed? || s.info[c].place == Starting(false))
    ensures forall c :: c in s.info && s.info[c].place.Handed? ==> c !in s.starting
  {
    var c :| c != t && MayEnd(s, ready, c);
    FactsOf(s, c);
    assert c in s.info && (s.info[c].place.Handed? || s.info[c].place == Starting(false));
  }

  /** When a task ends while it is handed over, and nothing else is left, the nursery closes. */
  lemma LastOfAll(s: State, c: nat)
    requires Fine(s) && s.tasks == [] && s.pending == 0 && s.parent && c in s.info && s.info[c].place.Handed?
    ensures var s' := Closed(EndsInTransit(s, c));
            && !s'.open && ResumeParent in s'.queue && s'.transit == s.transit && c in s'.transit
            && s'.info == s.info[c := Task(EndedEarly(false), 1, true)]
  {
    FactsOf(s, c);
  }

  lemma LastStart(s: State, c: nat)
    requires Fine(s) && c in s.info && s.info[c].place == Starting(false) && s.starting <= {c}
    ensures var s1 := LetGo(s, c, Task(Handed, 1, false));
            && s1.pending == 0 && s1.transit == s.transit + {c} && s1.parent == s.parent && s1.tasks == s.tasks && s1.open == s.open
            && s1.info == s.info[c := Task(Handed, 1, false)]
  {
    FactsOf(s, c);
    PlaceCounts(s);
    assert s.starting == {c};
  }

  lemma ExposedFacts(s: State, ready: set<nat>, t: nat)
    requires Fine(s) && Exposed(s, ready, t)
    ensures s.cancelling && s.open && t in s.info && s.info[t].place == Starting(false) && t !in ready
    ensures s.parent || !s.kind.scoped
    ensures NoneStays(s, ready) && (s.parent ==> NoStartStays(s, ready) && exists c :: c != t && MayEnd(s, ready, c))
  {
    assert s.parent || !s.kind.scoped;
    forall u | s.parent ensures !StartStays(s, ready, u) {}
  }

  // ----- what the methods need to know

  lemma ParentFacts(s: State)
    requires Fine(s)
    ensures (s.opening ==> s.parent) && (s.parent ==> s.open)
  {}

  lemma BodySound(s: State, t: nat)
    requires Fine(s) && s.opening && t !in s.info && s.open
    ensures var s' := Adopted(s, t).(opening := false); Fine(s') && Kept(s, s')
  {
    AdoptSound(s, t);
    hide OnePlace, CancelledOnce, FramesQueued, ClosedEmpty, FirstError, CareHelps;
    OpeningOver(Adopted(s, t));
  }

  lemma OpeningOver(s: State)
    requires Fine(s) && !Stuck(s)
    ensures Fine(s.(opening := false)) && Kept(s, s.(opening := false))
  {}

  lemma JoinSound(s: State)
    requires Fine(s) && !s.parent
    ensures var s' := s.(open := false); s.open && s.tasks == [] && !s.kind.scoped ==> Fine(s') && Kept(s, s')
    ensures var s' := s.(parent := true, bound := 1); s.open && s.tasks != [] && !s.kind.scoped ==> Fine(s') && Kept(s, s') && s.bound == 0
    ensures Kept(s, s)
  {}

  lemma ContinueKeeps(s: State, s': State)
    requires s' == Closed(s)
    ensures Kept(s, s')
  {}

  lemma BatchStep(r: State, s0: State, s2: State, all: seq<nat>, done: nat)
    requires 0 < done <= |all| && s0.batch == all[done - 1..] && Fine(s0) && s0.batch[0] in s0.info && Fine(s2)
    requires r.batch == s0.batch && Kept(r, s0) && Kept(NextCancelled(s0), s2)
    requires forall i :: 0 <= i < done - 1 ==> all[i] in s0.info && s0.info[all[i]].cancels == 1
    ensures Kept(r.(batch := s2.batch), s2) && s2.batch == all[done..] && (s0.cancelling ==> s2.cancelling)
    ensures forall i :: 0 <= i < done ==> all[i] in s2.info && s2.info[all[i]].cancels == 1
  {
    var s1, t := NextCancelled(s0), s0.batch[0];
    NextSound(s0);
    assert t == all[done - 1] && s0.batch[1..] == all[done..];
    forall i | 0 <= i < done ensures all[i] in s2.info && s2.info[all[i]].cancels == 1 {
      assert all[i] in s1.info && s1.info[all[i]].cancels == 1;
      KeptFacts(s1, s2);
      FactsOf(s2, all[i]);
    }
    hide Fine, Sound, CancelOk;
    KeptBatch(r, s0);
    KeptTrans(r.(batch := s1.batch), s0.(batch := s1.batch), s1);
    KeptTrans(r.(batch := s1.batch), s1, s2);
    KeptFacts(s1, s2);
  }

  lemma FrontFacts(s: State)
    requires Fine(s) && s.batch != []
    ensures var t := s.batch[0]; t in s.info && !s.info[t].place.Nowhere? && !s.info[t].confirmed && s.info[t].cancels == 0
  {
    FactsOf(s, s.batch[0]);
  }

  lemma CancellingSet(s: State)
    requires Fine(s) && !s.cancelling
    ensures Sound(s.(cancelling := false, error := None, reports := []))
    ensures FirstError(s.(cancelling := true))
  {}

  lemma ErrorStored(s: State, e: nat)
    requires Fine(s)
    ensures var s' := s.(error := if s.error.None? then Some(e) else s.error, reports := s.reports + [e], cancelling := true);
            && FirstError(s') && Kept(s, s') && (s.cancelling ==> Fine(s'))
  {}

  function Reporting(s: State, t: nat): State
    requires t in s.info
  {
    s.(info := With(s, t, s.info[t].(place := Over)))
  }

  lemma ReportingFacts(s: State, t: nat)
    requires t in s.info
    ensures var s1 := Reporting(s, t); t in s1.info && s1.info[t] == s.info[t].(place := Over) && s1.reports == s.reports
  {}

  lemma ReportSound(s: State, t: nat)
    requires Fine(s) && t in s.info && s.info[t].place.In? && s.open
    ensures Fine(Reporting(s, t)) && Kept(s, Reporting(s, t))
  {
    FactsOf(s, t);
    UpdateSound(s, t, s.info[t].(place := Over));
  }

  lemma OverFacts(s: State, s': State, t: nat)
    requires Kept(s, s') && Fine(s') && t in s.info && s.info[t].place.Over?
    ensures t in s'.info && s'.info[t].place.Over? && s'.open && s'.info[t].cancels >= s.info[t].cancels
    ensures s'.info[t].cancels <= 1
  {
    KeptFacts(s, s');
    FactsOf(s', t);
  }

  function Confirmed(s: State, t: nat, confirmed: bool): State
    requires t in s.info
  {
    s.(info := With(s, t, s.info[t].(confirmed := confirmed)))
  }

  /** A task ends without reporting anything. */
  function Ended(s: State, t: nat, confirmed: bool): State
    requires t in s.info
  {
    Confirmed(Closed(Left(s, t)), t, confirmed)
  }

  lemma EndSound(s: State, t: nat, confirmed: bool)
    requires Fine(s) && t in s.info && s.info[t].place.Over? && s.open && (confirmed ==> s.info[t].cancels == 1)
    ensures var s' := Closed(Left(s, t)); Fine(Confirmed(s', t, confirmed))
  {
    var s1 := Left(s, t);
    LeaveSound(s, t);
    CloseSound(s1);
    var s' := Closed(s1);
    assert s'.info == s1.info;
    FactsOf(s, t);
    FactsOf(s', t);
    assert CancelOk(s'.info[t].(confirmed := confirmed), t in s'.batch, s'.cancelling);
    UpdateSound(s', t, s'.info[t].(confirmed := confirmed));
  }

  lemma EndedAtOnce(s: State, t: nat, confirmed: bool)
    requires t in s.info
    ensures Confirmed(Closed(Left(Reporting(s, t), t)), t, confirmed) == Ended(s, t, confirmed)
  {
    assert Left(Reporting(s, t), t) == Left(s, t);
    hide Left, Reporting, Closed, Without;
  }

  lemma EndKeeps(s: State, s2: State, t: nat, confirmed: bool)
    requires Kept(s, s2) && t in s.info && s.info[t].place.In? && t in s2.info
    ensures Kept(s, Confirmed(Closed(Left(s2, t)), t, confirmed))
  {}

  lemma CancelledStart(s0: State, s: State, s': State, t: nat)
    requires s == StartCancelled(s0, t) && Kept(s, s') && Fine(s')
    ensures t in s'.info && s'.info[t].cancels == 1 && (s'.info[t].place == Starting(true) || s'.info[t].place.Nowhere?)
  {
    KeptFacts(s, s');
    FactsOf(s', t);
  }

  lemma SignalSound(s: State, t: nat)
    requires Fine(s) && s.open && t in s.info && s.info[t].place == Starting(false)
    ensures s.pending > 0
    ensures var s1 := LetGo(s, t, Task(Nowhere, 0, false)); Fine(Adopted(s1, t)) && Kept(s, Adopted(s1, t)) && Adopted(s1, t).overrun == s.overrun
  {
    var s1, task := LetGo(s, t, Task(Nowhere, 0, false)), Task(Nowhere, 0, false);
    FactsOf(s, t);
    assert CancelOk(task, false, s.cancelling);
    LetGoSound(s, t, task);
    assert s1.open && s1.info[t] == task && MovedOn(s.info[t], NewTask(s1));
    hide Sound, Fine, CancelOk, MovedOn;
    AdoptSound(s1, t);
    hide Kept, LetGo;
    SignalKeeps(s, t);
  }

  lemma SignalKeeps(s: State, t: nat)
    requires t in s.info && MovedOn(s.info[t], NewTask(s))
    ensures var s1 := LetGo(s, t, Task(Nowhere, 0, false)); Kept(s, Adopted(s1, t)) && Adopted(s1, t).overrun == s.overrun
  {}

  lemma HandSound(s: State, t: nat)
    requires Fine(s) && s.cancelling && !s.kind.careful && t in s.info && s.info[t].place == Starting(false)
    ensures var s1 := LetGo(s, t, Task(Handed, 1, false)); Fine(s1) && Kept(s.(transit := s1.transit), s1) && t !in s.transit
    ensures s.pending > 0
  {
    FactsOf(s, t);
    LetGoSound(s, t, Task(Handed, 1, false));
  }

  lemma HandedStill(s: State, s1: State, s2: State, t: nat)
    requires s1 == LetGo(s, t, Task(Handed, 1, false)) && Kept(s1, s2) && Fine(s2)
    ensures t in s2.transit && t in s2.info && s2.info[t].place.InTransit() && s2.transit == s.transit + {t}
  {
    KeptFacts(s1, s2);
    assert t in s2.info;
    FactsOf(s2, t);
  }

  lemma HandKeeps(s: State, s2: State, s': State, t: nat)
    requires Kept(s.(transit := s2.transit), s2) && t in s2.transit && t !in s.transit && t in s2.info && s2.transit == s.transit + {t}
    requires s' == Enlisted(s2, t) && Fine(s2)
    ensures Kept(s, s')
    ensures t in s'.tasks && t in s'.info && (s'.info[t].place.In? || s'.info[t].place == EndedEarly(true)) && s'.open == s2.open
    ensures (s'.info[t].place.In? <==> s2.info[t].place.Handed?) && (!s2.open && s2.info[t].place.Handed? ==> s'.overrun)
  {
    FactsOf(s2, t);
    EnlistSound(s2, t);
    hide Fine, Sound;
    KeptTransit(s.(transit := s2.transit), s2, s.transit);
    assert s2.transit - {t} == s.transit;
    KeptTrans(s, s2.(transit := s.transit), s');
  }

  lemma KeptTransit(s: State, s': State, transit: set<nat>)
    requires Kept(s, s')
    ensures Kept(s.(transit := transit), s'.(transit := transit))
  {}

  function Quieted(s: State, t: nat, confirmed: bool): State
    requires t in s.info
  {
    var s1 := LetGo(s, t, Task(Nowhere, s.info[t].cancels, confirmed));
    s1.(quiet := s1.quiet + 1)
  }

  lemma QuietSound(s: State, t: nat, confirmed: bool)
    requires Fine(s) && t in s.info && s.info[t].place.Starting? && (confirmed ==> s.info[t].cancels == 1)
    ensures s.pending > 0 && Fine(Quieted(s, t, confirmed)) && Kept(s, Quieted(s, t, confirmed))
  {
    hide Fine, Sound, Kept, LetGo;
    StartFacts(s, t, confirmed);
    LetGoSound(s, t, Task(Nowhere, s.info[t].cancels, confirmed));
    QuietFine(s, LetGo(s, t, Task(Nowhere, s.info[t].cancels, confirmed)));
  }

  lemma StartFacts(s: State, t: nat, confirmed: bool)
    requires Fine(s) && t in s.info && s.info[t].place.Starting? && (confirmed ==> s.info[t].cancels == 1)
    ensures var task := Task(Nowhere, s.info[t].cancels, confirmed); CancelOk(task, false, s.cancelling) && MovedOn(s.info[t], task)
  {
    FactsOf(s, t);
  }

  lemma QuietStuck(s: State, t: nat, confirmed: bool)
    requires Fine(s) && t in s.info && s.info[t].place.Starting?
    ensures Stuck(Quieted(s, t, confirmed)) <==> s.parent && s.tasks == [] && s.starting == {t}
  {
    FactsOf(s, t);
    PlaceCounts(s);
    PutCounts(s.starting, t);
    assert s.starting == {t} <==> |s.starting - {t}| == 0;
    hide Fine, Sound, OnePlace;
  }

  lemma QuietFine(s: State, s1: State)
    requires Sound(s1) && Kept(s, s1)
    ensures var s' := s1.(quiet := s1.quiet + 1); Fine(s') && Kept(s, s')
  {}
}
