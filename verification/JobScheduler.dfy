/** The coalescing background-job scheduler: one running task, one pending slot, one idle event.
    Each stretch of code between two awaits is one atomic step; steps interleave freely. */
module JobScheduler {
  import opened Basics

  datatype Snapshot = Snapshot(sessionId: string, userId: string, turnId: string,
                               userMessages: seq<string>, submittedUserCount: int)

  /** A task of the event loop: created, inside the runner, or finished. */
  datatype Status = Created | Active | Done

  datatype Task = Task(snapshot: Snapshot, status: Status)

  datatype State = State(runningTask: Option<nat>, pending: Option<Snapshot>, idle: bool, tasks: seq<Task>)

  datatype Event =
    | Submit(snapshot: Snapshot)
    | Begin(task: nat)                  // the task's first step, up to the runner's suspension
    | Finish(task: nat, raised: bool)   // the runner returns or raises; the finally block runs

  const INITIAL := State(None, None, true, [])

  // ----- the steps

  /** Which steps the event loop can take: any task in the right status, not just the one the
      scheduler has on record. */
  predicate Enabled(st: State, e: Event) {
    match e
    case Submit(_) => true
    case Begin(i) => i < |st.tasks| && st.tasks[i].status == Created
    case Finish(i, _) => i < |st.tasks| && st.tasks[i].status == Active
  }

  predicate WellFormed(st: State) {
    st.runningTask.Some? ==> st.runningTask.value < |st.tasks|
  }

  /** The task on record is one of the event loop's tasks. */
  type LiveState = st: State | WellFormed(st) witness INITIAL

  function Started(st: State, snapshot: Snapshot): State {
    st.(tasks := st.tasks + [Task(snapshot, Created)], runningTask := Some(|st.tasks|))
  }

  function WithStatus(st: State, i: nat, status: Status): State
    requires i < |st.tasks|
  {
    st.(tasks := st.tasks[i := st.tasks[i].(status := status)])
  }

  function Step(st: LiveState, e: Event): LiveState
    requires Enabled(st, e)
  {
    match e
    case Submit(s) =>
      var busy := st.(idle := false);
      if st.runningTask.None? || st.tasks[st.runningTask.value].status == Done then Started(busy, s)
      else busy.(pending := Some(s))
    case Begin(i) => WithStatus(st, i, Active)
    case Finish(i, _) =>
      var taken := WithStatus(st, i, Done).(pending := None);
      match st.pending
      case None => taken.(runningTask := None, idle := true)
      case Some(next) => Started(taken, next)
  }

  class MemoryJobScheduler {
    var runningTask: Option<nat>
    var pendingSnapshot: Option<Snapshot>
    var idleEvent: bool
    var tasks: seq<Task>   // what `asyncio.create_task` has put on the event loop

    function View(): State
      reads this
    {
      State(runningTask, pendingSnapshot, idleEvent, tasks)
    }

    constructor ()
      ensures View() == INITIAL
    {
      runningTask, pendingSnapshot, idleEvent, tasks := None, None, true, [];
    }

    method Submit(snapshot: Snapshot)
      requires WellFormed(View())
      modifies this
      ensures View() == Step(old(View()), Event.Submit(snapshot))
    {
      idleEvent := false;
      var currentTask := runningTask;
      if currentTask.None? || tasks[currentTask.value].status == Done {
        Start(snapshot);
        return;
      }
      pendingSnapshot := Some(snapshot);
    }

    method Start(snapshot: Snapshot)
      modifies this`runningTask, this`tasks
      ensures View() == Started(old(View()), snapshot)
    {
      runningTask := Some(|tasks|);
      tasks := tasks + [Task(snapshot, Created)];
    }

    /** `_run` up to `await self._runner(snapshot)`. */
    method RunBegins(i: nat)
      requires WellFormed(View()) && Enabled(View(), Begin(i))
      modifies this
      ensures View() == Step(old(View()), Begin(i))
    {
      tasks := tasks[i := tasks[i].(status := Active)];
    }

    /** `_run` from the runner's return or exception to the end of the finally block. */
    method RunFinishes(i: nat, raised: bool)
      requires WellFormed(View()) && Enabled(View(), Finish(i, raised))
      modifies this
      ensures View() == Step(old(View()), Finish(i, raised))
    {
      var next := pendingSnapshot;
      pendingSnapshot := None;
      tasks := tasks[i := tasks[i].(status := Done)];
      if next.None? {
        runningTask := None;
        idleEvent := true;
        return;
      }
      Start(next.value);
    }
  }

  // ----- runs

  /** A state with, for each task and for the pending slot, the submission its snapshot came from. */
  datatype Traced = Traced(st: LiveState, submissions: seq<Snapshot>, origins: seq<nat>, pendingOrigin: Option<nat>)

  const START := Traced(INITIAL, [], [], None)

  function TracedStep(t: Traced, e: Event): Traced
    requires Enabled(t.st, e)
  {
    var st := Step(t.st, e);
    match e
    case Submit(s) =>
      var k := |t.submissions|;
      if |st.tasks| > |t.st.tasks| then Traced(st, t.submissions + [s], t.origins + [k], t.pendingOrigin)
      else Traced(st, t.submissions + [s], t.origins, Some(k))
    case Begin(_) => t.(st := st)
    case Finish(_, _) =>
      Traced(st, t.submissions, if t.pendingOrigin.Some? then t.origins + [t.pendingOrigin.value] else t.origins, None)
  }

  /** The run of a sequence of events from t, if each of them is possible when its turn comes. */
  function RunFrom(t: Traced, events: seq<Event>): Option<Traced> {
    if events == [] then Some(t)
    else
      var before := RunFrom(t, events[..|events| - 1]);
      var e := events[|events| - 1];
      if before.Some? && Enabled(before.value.st, e) then Some(TracedStep(before.value, e)) else None
  }

  // ----- the invariant of all runs

  /** At most one task is not done: the last one created, and it is the one on record. */
  ghost predicate OneLive(st: State) {
    && (forall i | 0 <= i < |st.tasks| - 1 :: st.tasks[i].status == Done)
    && (match st.runningTask
        case Some(r) => r == |st.tasks| - 1 && st.tasks[r].status != Done
        case None => |st.tasks| > 0 ==> st.tasks[|st.tasks| - 1].status == Done)
  }

  /** Idle exactly when nothing runs, and then nothing waits. */
  ghost predicate IdleIffQuiet(st: State) {
    && (st.idle <==> st.runningTask.None?)
    && (st.runningTask.None? ==> st.pending.None?)
  }

  /** Every task, and the pending slot, holds the snapshot of its origin. */
  ghost predicate Traces(t: Traced) {
    && |t.origins| == |t.st.tasks|
    && (forall i | 0 <= i < |t.origins| ::
          t.origins[i] < |t.submissions| && t.st.tasks[i].snapshot == t.submissions[t.origins[i]])
    && (t.st.pending.Some? <==> t.pendingOrigin.Some?)
    && (t.pendingOrigin.Some?
        ==> t.pendingOrigin.value < |t.submissions| && t.st.pending.value == t.submissions[t.pendingOrigin.value])
  }

  /** Origins in line: the tasks' in creation order, then the pending one. */
  function Line(t: Traced): seq<nat> {
    if t.pendingOrigin.Some? then t.origins + [t.pendingOrigin.value] else t.origins
  }

  /** The line is strictly increasing and the newest submission stands last in it. */
  ghost predicate InOrder(t: Traced) {
    var line := Line(t);
    && (forall i, j | 0 <= i < j < |line| :: line[i] < line[j])
    && (|t.submissions| == 0 ==> line == [])
    && (|t.submissions| > 0 ==> line != [] && line[|line| - 1] == |t.submissions| - 1)
  }

  ghost predicate Inv(t: Traced) {
    OneLive(t.st) && IdleIffQuiet(t.st) && Traces(t) && InOrder(t)
  }

  lemma SubmitKeepsInv(t: Traced, s: Snapshot)
    requires Inv(t)
    ensures Inv(TracedStep(t, Submit(s)))
  {
    var next := TracedStep(t, Submit(s));
    if t.st.runningTask.None? {
      assert |next.st.tasks| == |t.st.tasks| + 1 && next.pendingOrigin.None?;
      assert Line(next) == Line(t) + [|t.submissions|];
    } else {
      assert next.st.tasks == t.st.tasks && next.pendingOrigin == Some(|t.submissions|);
      assert Line(next) == t.origins + [|t.submissions|];
      assert forall i | 0 <= i < |t.origins| :: Line(t)[i] == t.origins[i];
    }
  }

  lemma BeginKeepsInv(t: Traced, i: nat)
    requires Inv(t) && Enabled(t.st, Begin(i))
    ensures Inv(TracedStep(t, Begin(i)))
  {
    assert i == |t.st.tasks| - 1;
    assert Line(TracedStep(t, Begin(i))) == Line(t);
  }

  lemma FinishKeepsInv(t: Traced, i: nat, raised: bool)
    requires Inv(t) && Enabled(t.st, Finish(i, raised))
    ensures Inv(TracedStep(t, Finish(i, raised)))
  {
    assert i == |t.st.tasks| - 1;
    assert Line(TracedStep(t, Finish(i, raised))) == Line(t);
  }

  lemma StepKeepsInv(t: Traced, e: Event)
    requires Inv(t) && Enabled(t.st, e)
    ensures Inv(TracedStep(t, e))
  {
    match e
    case Submit(s) => SubmitKeepsInv(t, s);
    case Begin(i) => BeginKeepsInv(t, i);
    case Finish(i, raised) => FinishKeepsInv(t, i, raised);
  }

  lemma {:induction false} RunKeepsInv(t: Traced, events: seq<Event>)
    requires Inv(t) && RunFrom(t, events).Some?
    ensures Inv(RunFrom(t, events).value)
  {
    if events == [] {
    } else {
      var n := |events| - 1;
      RunKeepsInv(t, events[..n]);
      StepKeepsInv(RunFrom(t, events[..n]).value, events[n]);
    }
  }

  // ----- safety over every run

  function SubmissionsOf(events: seq<Event>): seq<Snapshot> {
    if events == [] then []
    else
      SubmissionsOf(events[..|events| - 1])
      + match events[|events| - 1] { case Submit(s) => [s] case _ => [] }
  }

  lemma {:induction false} SubmissionsAreRecorded(events: seq<Event>)
    requires RunFrom(START, events).Some?
    ensures RunFrom(START, events).value.submissions == SubmissionsOf(events)
  {
    if events == [] {
    } else {
      SubmissionsAreRecorded(events[..|events| - 1]);
    }
  }

  /** No two tasks are unfinished at once; idle means all tasks are done and nothing is pending. */
  ghost predicate SingleWorker(st: State) {
    && (forall i, j | 0 <= i < |st.tasks| && 0 <= j < |st.tasks| ::
          st.tasks[i].status != Done && st.tasks[j].status != Done ==> i == j)
    && (st.idle <==> st.pending.None? && forall i | 0 <= i < |st.tasks| :: st.tasks[i].status == Done)
  }

  /** The tasks run some of the submissions, in submission order; when idle, the newest was run. */
  ghost predicate Coalesces(tasks: seq<Task>, origins: seq<nat>, subs: seq<Snapshot>, idle: bool) {
    && |origins| == |tasks|
    && (forall i | 0 <= i < |tasks| :: origins[i] < |subs| && tasks[i].snapshot == subs[origins[i]])
    && (forall i, j | 0 <= i < j < |origins| :: origins[i] < origins[j])
    && (idle && subs != [] ==> |origins| > 0 && origins[|origins| - 1] == |subs| - 1)
  }

  lemma InvMeans(t: Traced)
    requires Inv(t)
    ensures SingleWorker(t.st)
    ensures Coalesces(t.st.tasks, t.origins, t.submissions, t.st.idle)
  {
    assert forall i | 0 <= i < |t.origins| :: Line(t)[i] == t.origins[i];
    var last := |t.st.tasks| - 1;
    if t.st.runningTask.Some? {
      assert t.st.tasks[last].status != Done;
    }
  }

  /** Safety in every state of every run, whatever the interleaving and however runners end. */
  lemma SchedulerIsSafe(events: seq<Event>, t: Traced)
    requires RunFrom(START, events) == Some(t)
    ensures SingleWorker(t.st)
    ensures Coalesces(t.st.tasks, t.origins, SubmissionsOf(events), t.st.idle)
  {
    RunKeepsInv(START, events);
    SubmissionsAreRecorded(events);
    InvMeans(t);
  }

  /** A snapshot leaves the pending slot only by being started, or by a newer one taking its place. */
  lemma PendingIsStartedOrSuperseded(t: Traced, e: Event)
    requires Inv(t) && Enabled(t.st, e) && t.pendingOrigin.Some?
    ensures var next := TracedStep(t, e);
            || next.pendingOrigin == t.pendingOrigin
            || (next.pendingOrigin.None? && next.origins == t.origins + [t.pendingOrigin.value])
            || (e.Submit? && next.pendingOrigin == Some(|t.submissions|) && t.pendingOrigin.value < |t.submissions|)
  {
  }

  // ----- quiet runs

  /** Begin and Finish steps still to come if nobody submits. */
  function StepsLeft(st: State): (r: nat)
    ensures r <= 4
  {
    (if |st.tasks| == 0 then 0
     else match st.tasks[|st.tasks| - 1].status { case Created => 2 case Active => 1 case Done => 0 })
    + (if st.pending.Some? then 2 else 0)
  }

  function CompletionsLeft(st: State): (r: nat)
    ensures r <= 2
  {
    (if st.runningTask.Some? then 1 else 0) + (if st.pending.Some? then 1 else 0)
  }

  function Completions(events: seq<Event>): nat {
    if events == [] then 0
    else Completions(events[..|events| - 1]) + if events[|events| - 1].Finish? then 1 else 0
  }

  /** What one quiet step spends. */
  ghost predicate StepSpends(before: State, after: State, completions: nat) {
    && StepsLeft(after) == StepsLeft(before) - 1
    && CompletionsLeft(after) == CompletionsLeft(before) - completions
  }

  lemma BeginSpends(t: Traced, i: nat)
    requires Inv(t) && Enabled(t.st, Begin(i))
    ensures StepSpends(t.st, Step(t.st, Begin(i)), 0)
  {
    var next := Step(t.st, Begin(i));
    assert i == |t.st.tasks| - 1 && |next.tasks| == |t.st.tasks|;
    assert next.tasks[i].status == Active;
  }

  lemma FinishSpends(t: Traced, i: nat, raised: bool)
    requires Inv(t) && Enabled(t.st, Finish(i, raised))
    ensures StepSpends(t.st, Step(t.st, Finish(i, raised)), 1)
  {
    var next := Step(t.st, Finish(i, raised));
    assert i == |t.st.tasks| - 1 && next.pending.None?;
    if t.st.pending.Some? {
      assert next.tasks[|next.tasks| - 1].status == Created;
    } else {
      assert next.tasks[|next.tasks| - 1].status == Done;
    }
  }

  lemma QuietStep(t: Traced, e: Event)
    requires Inv(t) && Enabled(t.st, e) && !e.Submit?
    ensures StepSpends(t.st, Step(t.st, e), if e.Finish? then 1 else 0)
  {
    match e
    case Begin(i) => BeginSpends(t, i);
    case Finish(i, raised) => FinishSpends(t, i, raised);
    case _ =>
  }

  /** What a quiet run has done and has left. */
  ghost predicate Spent(t: Traced, events: seq<Event>, end: Traced) {
    && StepsLeft(end.st) + |events| == StepsLeft(t.st)
    && CompletionsLeft(end.st) + Completions(events) == CompletionsLeft(t.st)
    && end.submissions == t.submissions
  }

  lemma {:induction false} QuietRun(t: Traced, events: seq<Event>, end: Traced)
    requires Inv(t) && RunFrom(t, events) == Some(end)
    requires forall k | 0 <= k < |events| :: !events[k].Submit?
    ensures Inv(end) && Spent(t, events, end)
  {
    if events == [] {
    } else {
      var n := |events| - 1;
      var before := RunFrom(t, events[..n]).value;
      QuietRun(t, events[..n], before);
      StepKeepsInv(before, events[n]);
      QuietStep(before, events[n]);
    }
  }

  lemma SpentIsLittle(t: Traced, events: seq<Event>, end: Traced)
    requires Spent(t, events, end)
    ensures |events| <= 4 && Completions(events) <= 2 && end.submissions == t.submissions
  {
  }

  /** Some step is always possible until the scheduler is idle. */
  lemma NoDeadlock(t: Traced)
    requires Inv(t) && !t.st.idle
    ensures exists e: Event :: !e.Submit? && Enabled(t.st, e)
  {
    var i := |t.st.tasks| - 1;
    if t.st.tasks[i].status == Created {
      assert Enabled(t.st, Begin(i));
    } else {
      assert Enabled(t.st, Finish(i, false));
    }
  }

  /** Nothing can happen any more but a submission. */
  ghost predicate Quiet(st: State) {
    forall e: Event :: Enabled(st, e) ==> e.Submit?
  }

  lemma QuietIffIdle(t: Traced)
    requires Inv(t)
    ensures t.st.idle <==> Quiet(t.st)
  {
    if !t.st.idle { NoDeadlock(t); }
  }

  lemma IdleRanLast(t: Traced)
    requires Inv(t) && t.st.idle && t.submissions != []
    ensures CaughtUp(t.st, t.submissions[|t.submissions| - 1])
  {
    InvMeans(t);
  }

  /** Idle, with the given submission the last one run, to its end. */
  ghost predicate CaughtUp(st: State, last: Snapshot) {
    st.idle && |st.tasks| > 0 && st.tasks[|st.tasks| - 1] == Task(last, Done)
  }

  lemma SpentMeansDrained(t: Traced, quiet: seq<Event>, end: Traced)
    requires Inv(end) && Spent(t, quiet, end)
    ensures |quiet| <= 4 && Completions(quiet) <= 2
    ensures end.st.idle <==> Quiet(end.st)
    ensures end.st.idle && t.submissions != [] ==> CaughtUp(end.st, t.submissions[|t.submissions| - 1])
  {
    SpentIsLittle(t, quiet, end);
    QuietIffIdle(end);
    if end.st.idle && end.submissions != [] { IdleRanLast(end); }
  }

  /** After any run, with no more submissions: at most two completions follow, and once no step is
      left the scheduler is idle and the last submission was the last one run, to its end. */
  lemma SchedulerDrains(events: seq<Event>, t: Traced, quiet: seq<Event>, end: Traced)
    requires RunFrom(START, events) == Some(t)
    requires RunFrom(t, quiet) == Some(end)
    requires forall k | 0 <= k < |quiet| :: !quiet[k].Submit?
    ensures t.submissions == SubmissionsOf(events)
    ensures |quiet| <= 4 && Completions(quiet) <= 2
    ensures end.st.idle <==> Quiet(end.st)
    ensures Quiet(end.st) && t.submissions != [] ==> CaughtUp(end.st, t.submissions[|t.submissions| - 1])
  {
    RunKeepsInv(START, events);
    SubmissionsAreRecorded(events);
    QuietRun(t, quiet, end);
    SpentMeansDrained(t, quiet, end);
  }
}
