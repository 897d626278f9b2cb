/** One agent suite run (backend/app/api/agent_suite_runs.py): the runner, its up to four
    parallel workflow runs, the watcher, and whoever stops the run from another process.

    The protocol is a state machine whose steps are the stretches between two awaits. The
    class `SuiteRunCode.SuiteRun` performs the same steps on mutable fields.
 */
module SuiteRunner {
  import opened Options

  const PARALLEL_RUNS := 4

  datatype Status = Running | Completed | Failed | Cancelled

  /** One element of the row's `results`. */
  datatype Entry = Entry(index: nat, outcome: string)

  /** A `run_one` task. `Finished` has its result and wants the write lock, which `Writing` holds. */
  datatype Task = Waiting | InFlight | Finished(outcome: string) | Writing | Recorded | Skipped

  /** The watcher: at its loop test, reading the row, holding what it read, asleep, or returned. */
  datatype Watcher = AtTest | Reading | Got(status: Status) | Asleep | Ended

  /** The runner. `chosen` is the status it has assigned but not yet committed. */
  datatype Phase =
    | Setup
    | Gathering
    | Refreshing(seen: Status, fallback: Status)
    | Stopping(seen: Status, chosen: Option<Status>)
    | Committing(seen: Status, chosen: Option<Status>)
    | Done(seen: Status, chosen: Option<Status>)

  datatype State = State(
    // the shared row, column by column
    status: Status, inputs: seq<string>, results: seq<Entry>, completedAt: bool, heartbeats: nat,
    // the runner's session copy of `results`
    session: seq<Entry>,
    phase: Phase, tasks: seq<Task>, permits: nat, lockedBy: Option<nat>,
    stop: bool, cancelEvents: map<nat, bool>,
    watcher: Watcher,
    // what an outside actor moved the status to, and how often the watcher read after stop
    outside: Option<Status>, readsAfterStop: nat)

  datatype Action =
    | Generate(inputs: seq<string>)
    | KeepInputs
    | SetupFails
    | Acquire(i: nat)
    | FinishRun(i: nat, outcome: string)
    | TakeLock(i: nat)
    | CommitEntry(i: nat)
    | Refresh
    | Settle
    | JoinWatcher
    | FinalCommit
    | WatchTest
    | WatchRead
    | WatchAct
    | WatchWake
    | OutsideStop(to: Status)

  function Launched(inputs: seq<string>): State {
    State(Running, inputs, [], false, 0, [], Setup, [], PARALLEL_RUNS, None, false, map[], AtTest, None, 0)
  }

  predicate Over(t: Task) { t.Recorded? || t.Skipped? }

  predicate Enabled(s: State, a: Action) {
    match a
    case Generate(_) => s.phase.Setup?
    case KeepInputs => s.phase.Setup?
    case SetupFails => s.phase.Setup?
    case Acquire(i) => s.phase.Gathering? && i < |s.tasks| && s.tasks[i].Waiting? && s.permits > 0
    case FinishRun(i, _) => s.phase.Gathering? && i < |s.tasks| && s.tasks[i].InFlight?
    case TakeLock(i) => s.phase.Gathering? && i < |s.tasks| && s.tasks[i].Finished? && s.lockedBy.None?
    case CommitEntry(i) => s.phase.Gathering? && i < |s.tasks| && s.tasks[i].Writing?
    case Refresh => s.phase.Gathering? && forall i | 0 <= i < |s.tasks| :: Over(s.tasks[i])
    case Settle => s.phase.Refreshing?
    case JoinWatcher => s.phase.Stopping? && s.watcher.Ended?
    case FinalCommit => s.phase.Committing?
    case WatchTest => s.watcher.AtTest?
    case WatchRead => s.watcher.Reading?
    case WatchAct => s.watcher.Got?
    case WatchWake => s.watcher.Asleep?
    case OutsideStop(to) => s.status.Running? && (to.Cancelled? || to.Failed?)
  }

  function AllSet(events: map<nat, bool>): map<nat, bool> { map i | i in events :: true }

  function Apply(s: State, a: Action): State
    requires Enabled(s, a)
  {
    match a
    case Generate(inputs) => s.(inputs := inputs, phase := Gathering, tasks := seq(|inputs|, _ => Waiting))
    case KeepInputs => s.(phase := Gathering, tasks := seq(|s.inputs|, _ => Waiting))
    case SetupFails => s.(phase := Refreshing(s.status, Failed))
    case Acquire(i) =>
      if s.stop then s.(tasks := s.tasks[i := Skipped])
      else s.(tasks := s.tasks[i := InFlight], permits := s.permits - 1, cancelEvents := s.cancelEvents[i := false])
    case FinishRun(i, outcome) => s.(tasks := s.tasks[i := Finished(outcome)], permits := s.permits + 1)
    case TakeLock(i) =>
      s.(session := s.session + [Entry(i, s.tasks[i].outcome)], tasks := s.tasks[i := Writing], lockedBy := Some(i))
    case CommitEntry(i) => s.(results := s.session, tasks := s.tasks[i := Recorded], lockedBy := None)
    case Refresh => s.(phase := Refreshing(s.status, Completed))
    case Settle =>
      s.(phase := Stopping(s.phase.seen, if s.phase.seen.Running? then Some(s.phase.fallback) else None), stop := true)
    case JoinWatcher => s.(phase := Committing(s.phase.seen, s.phase.chosen))
    case FinalCommit =>
      s.(status := if s.phase.chosen.Some? then s.phase.chosen.value else s.status,
         completedAt := true, phase := Done(s.phase.seen, s.phase.chosen))
    case WatchTest => s.(watcher := if s.stop then Ended else Reading)
    case WatchRead =>
      s.(watcher := Got(s.status), readsAfterStop := s.readsAfterStop + if s.stop then 1 else 0)
    case WatchAct =>
      if s.watcher.status.Running? then s.(heartbeats := s.heartbeats + 1, watcher := Asleep)
      else s.(stop := true, cancelEvents := AllSet(s.cancelEvents), watcher := Ended)
    case WatchWake => s.(watcher := AtTest)
    case OutsideStop(to) => s.(status := to, completedAt := true, outside := Some(to))
  }

  ghost predicate Reaches(s: State, actions: seq<Action>, end: State)
    decreases |actions|
  {
    if actions == [] then s == end
    else Enabled(s, actions[0]) && Reaches(Apply(s, actions[0]), actions[1..], end)
  }

  // ---------------------------------------------------------------- the invariant

  ghost function CountInFlight(tasks: seq<Task>): nat {
    if tasks == [] then 0 else (if tasks[0].InFlight? then 1 else 0) + CountInFlight(tasks[1..])
  }

  ghost predicate Listed(t: Task) { t.Writing? || t.Recorded? }

  ghost predicate HasIndex(entries: seq<Entry>, i: nat) {
    exists p :: 0 <= p < |entries| && entries[p].index == i
  }

  /** `entries` names each task that reached its write exactly once. */
  ghost predicate ListsWritten(entries: seq<Entry>, tasks: seq<Task>) {
    && (forall p | 0 <= p < |entries| :: entries[p].index < |tasks| && Listed(tasks[entries[p].index]))
    && (forall p, q | 0 <= p < q < |entries| :: entries[p].index != entries[q].index)
    && (forall i | 0 <= i < |tasks| && Listed(tasks[i]) :: HasIndex(entries, i))
  }

  ghost predicate PermitsInv(s: State) {
    && s.permits + CountInFlight(s.tasks) == PARALLEL_RUNS
    && (s.phase.Setup? ==> s.tasks == [])
  }

  ghost predicate TasksInv(s: State) {
    && (!s.stop ==> forall i | 0 <= i < |s.tasks| :: !s.tasks[i].Skipped?)
    && (!s.phase.Setup? && s.tasks != [] ==> |s.tasks| == |s.inputs|)
    && (s.phase.Gathering? ==> |s.tasks| == |s.inputs|)
    && (!s.phase.Setup? && !s.phase.Gathering? ==> forall i | 0 <= i < |s.tasks| :: Over(s.tasks[i]))
  }

  ghost predicate LockInv(s: State) {
    && (forall i | 0 <= i < |s.tasks| :: s.tasks[i].Writing? <==> s.lockedBy == Some(i))
    && (s.lockedBy.Some? ==> s.lockedBy.value < |s.tasks|)
    && s.results == (if s.lockedBy.Some? && s.session != [] then s.session[..|s.session| - 1] else s.session)
    && (s.lockedBy.Some? ==> s.session != [])
  }

  /** A cancel event for each task that entered, and for no other. */
  ghost predicate EventsInv(s: State) {
    forall i: nat :: i in s.cancelEvents <==> i < |s.tasks| && !s.tasks[i].Waiting? && !s.tasks[i].Skipped?
  }

  predicate Open(p: Phase) { p.Setup? || p.Gathering? || p.Refreshing? }

  ghost predicate WatchInv(s: State) {
    && (s.watcher.Got? && !s.watcher.status.Running? ==> !s.status.Running?)
    && (s.watcher.Ended? ==> s.stop)
    && (Open(s.phase) && s.stop ==>
          !s.status.Running? && s.watcher.Ended? && forall i | i in s.cancelEvents :: s.cancelEvents[i])
  }

  ghost predicate ReadsInv(s: State) {
    && s.readsAfterStop <= 1
    && (!s.stop ==> s.readsAfterStop == 0)
    && (s.stop && s.watcher.Reading? ==> s.readsAfterStop == 0)
  }

  ghost predicate StatusInv(s: State) {
    && (s.status.Running? ==> s.outside.None? && !s.phase.Done?)
    && (!s.status.Running? && !s.phase.Done? ==> s.outside == Some(s.status) && s.completedAt)
    && (s.outside.Some? ==> s.outside.value.Cancelled? || s.outside.value.Failed?)
  }

  ghost predicate DecisionInv(s: State) {
    && (s.phase.Refreshing? ==>
          && (s.phase.seen.Running? || s.outside == Some(s.phase.seen))
          && (s.phase.fallback.Completed? || (s.phase.fallback.Failed? && s.tasks == [])))
    && (!Open(s.phase) ==>
          && (s.phase.seen.Running? || s.outside == Some(s.phase.seen))
          && (s.phase.chosen.Some? <==> s.phase.seen.Running?)
          && (s.phase.chosen.Some? ==> s.phase.chosen.value.Completed? || s.phase.chosen.value.Failed?)
          && s.stop)
    && (s.phase.Done? ==> s.status == (if s.phase.chosen.Some? then s.phase.chosen.value else s.phase.seen) && s.completedAt)
  }

  /** Once the runner has decided on "completed", every task has recorded its entry. */
  ghost predicate CompletionInv(s: State) {
    && (s.phase.Refreshing? && s.phase.seen.Running? && s.phase.fallback.Completed? ==> AllRecorded(s))
    && ((s.phase.Stopping? || s.phase.Committing? || s.phase.Done?) && s.phase.chosen == Some(Completed) ==> AllRecorded(s))
  }

  ghost predicate AllRecorded(s: State) {
    |s.tasks| == |s.inputs| && forall i | 0 <= i < |s.tasks| :: s.tasks[i].Recorded?
  }

  ghost predicate Inv(s: State) {
    PermitsInv(s) && ListsWritten(s.session, s.tasks) && TasksInv(s) && LockInv(s)
    && EventsInv(s) && WatchInv(s) && ReadsInv(s) && StatusInv(s) && DecisionInv(s) && CompletionInv(s)
  }

  lemma LaunchedInv(inputs: seq<string>)
    ensures Inv(Launched(inputs))
  {
  }

  lemma {:induction false} CountUpdate(tasks: seq<Task>, i: nat, t: Task)
    requires i < |tasks|
    ensures CountInFlight(tasks[i := t]) == CountInFlight(tasks)
         - (if tasks[i].InFlight? then 1 else 0) + (if t.InFlight? then 1 else 0)
  {
    if i == 0 {
      assert tasks[i := t][1..] == tasks[1..];
    } else {
      assert tasks[i := t][1..] == tasks[1..][i - 1 := t];
      CountUpdate(tasks[1..], i - 1, t);
    }
  }

  lemma {:induction false} CountFresh(n: nat, tasks: seq<Task>)
    requires |tasks| == n && forall i | 0 <= i < |tasks| :: tasks[i].Waiting?
    ensures CountInFlight(tasks) == 0
  {
    if n > 0 {
      CountFresh(n - 1, tasks[1..]);
    }
  }

  lemma PermitsStep(s: State, a: Action)
    requires PermitsInv(s) && Enabled(s, a)
    ensures PermitsInv(Apply(s, a))
  {
    var n := Apply(s, a);
    match a {
      case Generate(_) => CountFresh(|n.tasks|, n.tasks);
      case KeepInputs => CountFresh(|n.tasks|, n.tasks);
      case Acquire(i) => CountUpdate(s.tasks, i, n.tasks[i]);
      case FinishRun(i, _) => CountUpdate(s.tasks, i, n.tasks[i]);
      case TakeLock(i) => CountUpdate(s.tasks, i, Writing);
      case CommitEntry(i) => CountUpdate(s.tasks, i, Recorded);
      case _ =>
    }
  }

  lemma ListStep(s: State, a: Action)
    requires PermitsInv(s) && ListsWritten(s.session, s.tasks) && Enabled(s, a)
    ensures ListsWritten(Apply(s, a).session, Apply(s, a).tasks)
  {
    match a {
      case TakeLock(i) => ListTaken(s.session, s.tasks, i);
      case Acquire(i) => ListSame(s.session, s.tasks, i, Apply(s, a).tasks[i]);
      case FinishRun(i, outcome) => ListSame(s.session, s.tasks, i, Finished(outcome));
      case CommitEntry(i) => ListSame(s.session, s.tasks, i, Recorded);
      case _ =>
    }
  }

  lemma ListSame(entries: seq<Entry>, tasks: seq<Task>, i: nat, t: Task)
    requires ListsWritten(entries, tasks) && i < |tasks| && (Listed(tasks[i]) <==> Listed(t))
    ensures ListsWritten(entries, tasks[i := t])
  {
    var now := tasks[i := t];
    forall j | 0 <= j < |now| && Listed(now[j]) ensures HasIndex(entries, j) {
      assert Listed(tasks[j]);
    }
  }

  lemma ListTaken(entries: seq<Entry>, tasks: seq<Task>, i: nat)
    requires ListsWritten(entries, tasks) && i < |tasks| && tasks[i].Finished?
    ensures ListsWritten(entries + [Entry(i, tasks[i].outcome)], tasks[i := Writing])
  {
    var after, now := entries + [Entry(i, tasks[i].outcome)], tasks[i := Writing];
    forall j | 0 <= j < |now| && Listed(now[j]) ensures HasIndex(after, j) {
      if j == i {
        assert after[|entries|].index == j;
      } else {
        var p :| 0 <= p < |entries| && entries[p].index == j;
        assert after[p].index == j;
      }
    }
  }

  lemma TasksStep(s: State, a: Action)
    requires PermitsInv(s) && TasksInv(s) && Enabled(s, a)
    ensures TasksInv(Apply(s, a))
  {
  }

  lemma LockStep(s: State, a: Action)
    requires PermitsInv(s) && LockInv(s) && Enabled(s, a)
    ensures LockInv(Apply(s, a))
  {
    if a.TakeLock? {
      assert Apply(s, a).session[..|s.session|] == s.session;
    }
  }

  lemma EventsStep(s: State, a: Action)
    requires PermitsInv(s) && EventsInv(s) && Enabled(s, a)
    ensures EventsInv(Apply(s, a))
  {
  }

  lemma WatchStep(s: State, a: Action)
    requires WatchInv(s) && StatusInv(s) && DecisionInv(s) && Enabled(s, a)
    ensures WatchInv(Apply(s, a))
  {
  }

  lemma ReadsStep(s: State, a: Action)
    requires WatchInv(s) && ReadsInv(s) && Enabled(s, a)
    ensures ReadsInv(Apply(s, a))
  {
  }

  lemma StatusStep(s: State, a: Action)
    requires StatusInv(s) && DecisionInv(s) && Enabled(s, a)
    ensures StatusInv(Apply(s, a))
  {
  }

  lemma DecisionStep(s: State, a: Action)
    requires PermitsInv(s) && StatusInv(s) && DecisionInv(s) && Enabled(s, a)
    ensures DecisionInv(Apply(s, a))
  {
  }

  lemma CompletionStep(s: State, a: Action)
    requires TasksInv(s) && WatchInv(s) && DecisionInv(s) && CompletionInv(s) && Enabled(s, a)
    ensures CompletionInv(Apply(s, a))
  {
  }

  lemma WholeStep(s: State, a: Action)
    requires Inv(s) && Enabled(s, a)
    ensures Inv(Apply(s, a))
  {
    PermitsStep(s, a);
    ListStep(s, a);
    TasksStep(s, a);
    LockStep(s, a);
    EventsStep(s, a);
    WatchStep(s, a);
    ReadsStep(s, a);
    StatusStep(s, a);
    DecisionStep(s, a);
    CompletionStep(s, a);
  }

  lemma {:induction false} RunKeepsInv(s: State, actions: seq<Action>, end: State)
    requires Inv(s) && Reaches(s, actions, end)
    ensures Inv(end)
    decreases |actions|
  {
    if actions != [] {
      WholeStep(s, actions[0]);
      RunKeepsInv(Apply(s, actions[0]), actions[1..], end);
    }
  }

  // ---------------------------------------------------------------- what every run of the protocol gives

  ghost predicate Reachable(inputs: seq<string>, actions: seq<Action>, s: State) {
    Reaches(Launched(inputs), actions, s)
  }

  /** Every permit is free or in the hands of a run in flight. */
  lemma PermitsAddUp(inputs: seq<string>, actions: seq<Action>, s: State)
    requires Reachable(inputs, actions, s)
    ensures s.permits + CountInFlight(s.tasks) == PARALLEL_RUNS
  {
    LaunchedInv(inputs);
    RunKeepsInv(Launched(inputs), actions, s);
  }

  /** Cancel events are registered for the tasks that entered, and set once the watcher has stopped the run. */
  lemma EventsOfTasks(inputs: seq<string>, actions: seq<Action>, s: State)
    requires Reachable(inputs, actions, s)
    ensures EventsInv(s)
    ensures Open(s.phase) && s.stop ==> forall i | i in s.cancelEvents :: s.cancelEvents[i]
  {
    LaunchedInv(inputs);
    RunKeepsInv(Launched(inputs), actions, s);
  }

  /** The session lists each task that reached its write exactly once; the row is one entry
      behind while the lock is held. */
  lemma ResultsOfTasks(inputs: seq<string>, actions: seq<Action>, s: State)
    requires Reachable(inputs, actions, s)
    ensures ListsWritten(s.session, s.tasks) && LockInv(s)
  {
    LaunchedInv(inputs);
    RunKeepsInv(Launched(inputs), actions, s);
  }

  /** Exactly one entry for every index of the inputs. */
  ghost predicate OneEntryEach(results: seq<Entry>, inputs: seq<string>) {
    && |results| == |inputs|
    && (forall i | 0 <= i < |inputs| :: HasIndex(results, i))
    && (forall p, q | 0 <= p < q < |results| :: results[p].index != results[q].index)
    && (forall p | 0 <= p < |results| :: results[p].index < |inputs|)
  }

  /** When the run ends "completed", the row's results hold exactly one entry for every index
      of the row's inputs, whatever the interleaving. */
  lemma CompletedRunIsWhole(inputs: seq<string>, actions: seq<Action>, s: State)
    requires Reachable(inputs, actions, s) && s.phase.Done? && s.status.Completed?
    ensures OneEntryEach(s.results, s.inputs)
  {
    LaunchedInv(inputs);
    RunKeepsInv(Launched(inputs), actions, s);
    assert s.lockedBy.None?;
    Counting(s.results, |s.inputs|);
  }

  /** Distinct indexes below n that cover every index below n: there are n of them. */
  lemma Counting(entries: seq<Entry>, n: nat)
    requires forall p | 0 <= p < |entries| :: entries[p].index < n
    requires forall p, q | 0 <= p < q < |entries| :: entries[p].index != entries[q].index
    requires forall i | 0 <= i < n :: HasIndex(entries, i)
    ensures |entries| == n
  {
    var used := set p | 0 <= p < |entries| :: entries[p].index;
    forall i ensures i in used <==> i in Below(n) {
      if i in Below(n) { assert HasIndex(entries, i); }
    }
    assert used == Below(n);
    SizeOfUsed(entries);
  }

  lemma {:induction false} SizeOfUsed(entries: seq<Entry>)
    requires forall p, q | 0 <= p < q < |entries| :: entries[p].index != entries[q].index
    ensures |set p | 0 <= p < |entries| :: entries[p].index| == |entries|
  {
    if entries != [] {
      var m := |entries| - 1;
      SizeOfUsed(entries[..m]);
      var before := set p | 0 <= p < m :: entries[..m][p].index;
      assert (set p | 0 <= p < |entries| :: entries[p].index) == before + {entries[m].index};
    }
  }

  ghost function Below(n: nat): (s: set<nat>)
    ensures |s| == n && forall i: nat :: i in s <==> i < n
  {
    if n == 0 then {} else Below(n - 1) + {n - 1}
  }

  /** Never more than four workflow runs at once. */
  lemma AtMostFourInFlight(inputs: seq<string>, actions: seq<Action>, s: State)
    requires Reachable(inputs, actions, s)
    ensures CountInFlight(s.tasks) <= 4
    ensures s.phase.Done? ==> s.permits == 4
  {
    LaunchedInv(inputs);
    RunKeepsInv(Launched(inputs), actions, s);
    if s.phase.Done? { NoneInFlight(s.tasks); }
  }

  lemma {:induction false} NoneInFlight(tasks: seq<Task>)
    requires forall i | 0 <= i < |tasks| :: !tasks[i].InFlight?
    ensures CountInFlight(tasks) == 0
  {
    if tasks != [] {
      NoneInFlight(tasks[1..]);
    }
  }

  /** Once the watcher has acted on a row that is no longer running, every registered run is
      cancelled, and from then on no run is ever launched. */
  lemma StopReachesEveryRun(inputs: seq<string>, before: seq<Action>, s: State, after: seq<Action>, end: State)
    requires Reachable(inputs, before, s) && s.watcher.Got? && !s.watcher.status.Running?
    requires Reaches(Apply(s, WatchAct), after, end)
    ensures forall i | i in end.cancelEvents :: end.cancelEvents[i]
    ensures end.cancelEvents.Keys == s.cancelEvents.Keys
    ensures forall i | 0 <= i < |end.tasks| && end.tasks[i].InFlight? :: i in end.cancelEvents
  {
    LaunchedInv(inputs);
    RunKeepsInv(Launched(inputs), before, s);
    WholeStep(s, WatchAct);
    StoppedStaysStopped(Apply(s, WatchAct), after, end);
    RunKeepsInv(Apply(s, WatchAct), after, end);
  }

  lemma {:induction false} StoppedStaysStopped(s: State, actions: seq<Action>, end: State)
    requires s.stop && s.watcher.Ended? && Reaches(s, actions, end)
    ensures end.stop && end.cancelEvents == s.cancelEvents
    decreases |actions|
  {
    if actions != [] { StoppedStaysStopped(Apply(s, actions[0]), actions[1..], end); }
  }

  /** After stop is set the watcher reads the row at most once more. */
  lemma WatcherReadsOnceAfterStop(inputs: seq<string>, actions: seq<Action>, s: State)
    requires Reachable(inputs, actions, s)
    ensures s.readsAfterStop <= 1
    ensures s.phase.Done? ==> s.stop
  {
    LaunchedInv(inputs);
    RunKeepsInv(Launched(inputs), actions, s);
  }

  predicate Watches(a: Action) { a.WatchTest? || a.WatchRead? || a.WatchAct? || a.WatchWake? }

  ghost function WatchSteps(actions: seq<Action>): nat {
    if actions == [] then 0 else (if Watches(actions[0]) then 1 else 0) + WatchSteps(actions[1..])
  }

  /** The steps a watcher has left once stop is set. */
  function Remaining(w: Watcher): nat {
    match w
    case Reading => 4
    case Got(_) => 3
    case Asleep => 2
    case AtTest => 1
    case Ended => 0
  }

  /** After stop the watcher takes at most four more steps, it can always take the next one, and
      when it has taken them all it has ended: `await watcher` returns. */
  lemma {:induction false} WatcherEndsAfterStop(s: State, actions: seq<Action>, end: State)
    requires s.stop && Reaches(s, actions, end)
    ensures end.stop && WatchSteps(actions) + Remaining(end.watcher) <= Remaining(s.watcher) <= 4
    ensures end.watcher.Ended? <==> !Enabled(end, WatchTest) && !Enabled(end, WatchRead) && !Enabled(end, WatchAct) && !Enabled(end, WatchWake)
    ensures WatchSteps(actions) >= Remaining(s.watcher) ==> end.watcher.Ended?
    decreases |actions|
  {
    if actions != [] {
      WatchStepShrinks(s, actions[0]);
      WatcherEndsAfterStop(Apply(s, actions[0]), actions[1..], end);
    }
  }

  lemma WatchStepShrinks(s: State, a: Action)
    requires s.stop && Enabled(s, a)
    ensures Apply(s, a).stop
    ensures Remaining(Apply(s, a).watcher) + (if Watches(a) then 1 else 0) <= Remaining(s.watcher)
  {
  }

  /** In each phase, whether the setup has failed is what the runner falls back to. */
  ghost predicate SetupInv(s: State, past: seq<Action>) {
    match s.phase
    case Setup => SetupFails !in past
    case Gathering => SetupFails !in past
    case Refreshing(_, fallback) => if SetupFails in past then fallback == Failed else fallback == Completed
    case Stopping(seen, chosen) => Chose(seen, chosen, past)
    case Committing(seen, chosen) => Chose(seen, chosen, past)
    case Done(seen, chosen) => Chose(seen, chosen, past)
  }

  ghost predicate Chose(seen: Status, chosen: Option<Status>, past: seq<Action>) {
    seen.Running? ==> chosen == Some(if SetupFails in past then Failed else Completed)
  }

  lemma {:induction false} RunKeepsSetup(past: seq<Action>, s: State, actions: seq<Action>, end: State)
    requires SetupInv(s, past) && Reaches(s, actions, end)
    ensures SetupInv(end, past + actions)
    decreases |actions|
  {
    if actions == [] {
      assert past + actions == past;
    } else {
      assert past + actions == past + [actions[0]] + actions[1..];
      assert SetupFails in past + [actions[0]] <==> SetupFails in past || actions[0] == SetupFails;
      RunKeepsSetup(past + [actions[0]], Apply(s, actions[0]), actions[1..], end);
    }
  }

  // ---------------------------------------------------------------- what was run and what came back

  /** Every entry, and every result waiting to be written, is what that index's workflow run returned. */
  ghost predicate OutcomesInv(s: State, past: seq<Action>) {
    && (forall i | 0 <= i < |s.tasks| && s.tasks[i].Finished? :: FinishRun(i, s.tasks[i].outcome) in past)
    && (forall p | 0 <= p < |s.session| :: FinishRun(s.session[p].index, s.session[p].outcome) in past)
    && (forall p | 0 <= p < |s.results| :: FinishRun(s.results[p].index, s.results[p].outcome) in past)
  }

  lemma OutcomesStep(s: State, past: seq<Action>, a: Action)
    requires OutcomesInv(s, past) && Enabled(s, a)
    ensures OutcomesInv(Apply(s, a), past + [a])
  {
    var now := past + [a];
    assert now[|past|] == a && forall b | b in past :: b in now;
  }

  lemma {:induction false} RunKeepsOutcomes(past: seq<Action>, s: State, actions: seq<Action>, end: State)
    requires OutcomesInv(s, past) && Reaches(s, actions, end)
    ensures OutcomesInv(end, past + actions)
    decreases |actions|
  {
    if actions == [] {
      assert past + actions == past;
    } else {
      assert past + actions == past + [actions[0]] + actions[1..];
      OutcomesStep(s, past, actions[0]);
      RunKeepsOutcomes(past + [actions[0]], Apply(s, actions[0]), actions[1..], end);
    }
  }

  /** The entry of an index, in the session and in the row, holds what that index's run returned. */
  lemma EntriesCarryTheirOutcomes(inputs: seq<string>, actions: seq<Action>, s: State)
    requires Reachable(inputs, actions, s)
    ensures forall p | 0 <= p < |s.session| :: FinishRun(s.session[p].index, s.session[p].outcome) in actions
    ensures forall p | 0 <= p < |s.results| :: FinishRun(s.results[p].index, s.results[p].outcome) in actions
  {
    RunKeepsOutcomes([], Launched(inputs), actions, s);
    assert [] + actions == actions;
  }

  /** A run works on the inputs it was launched with, unless a model wrote others. */
  lemma {:induction false} InputsStay(s: State, actions: seq<Action>, end: State)
    requires Reaches(s, actions, end)
    ensures if s.phase.Setup? && actions != [] && exists xs :: Generate(xs) in actions
            then Generate(end.inputs) in actions else end.inputs == s.inputs
    decreases |actions|
  {
    if actions != [] {
      InputsStay(Apply(s, actions[0]), actions[1..], end);
      if !s.phase.Setup? { NoSecondSetup(s, actions, end); }
      assert forall a :: a in actions <==> a == actions[0] || a in actions[1..];
      if !Apply(s, actions[0]).phase.Setup? { NoSecondSetup(Apply(s, actions[0]), actions[1..], end); }
    }
  }

  lemma {:induction false} NoSecondSetup(s: State, actions: seq<Action>, end: State)
    requires !s.phase.Setup? && Reaches(s, actions, end)
    ensures forall xs :: Generate(xs) !in actions
    decreases |actions|
  {
    if actions != [] { NoSecondSetup(Apply(s, actions[0]), actions[1..], end); }
  }

  /** How a run ends: as the refresh found it when somebody outside had closed it, else "failed"
      when the setup raised and "completed" when it did not. */
  lemma FinishedStatusIs(inputs: seq<string>, actions: seq<Action>, s: State)
    requires Reachable(inputs, actions, s) && s.phase.Done?
    ensures s.status == if !s.phase.seen.Running? then s.phase.seen
                        else if SetupFails in actions then Failed else Completed
    ensures !s.phase.seen.Running? ==> OutsideStop(s.status) in actions
  {
    LaunchedInv(inputs);
    RunKeepsInv(Launched(inputs), actions, s);
    RunKeepsSetup([], Launched(inputs), actions, s);
    OutsideWasStopped([], Launched(inputs), actions, s);
    assert [] + actions == actions;
  }

  lemma {:induction false} OutsideWasStopped(past: seq<Action>, s: State, actions: seq<Action>, end: State)
    requires Reaches(s, actions, end) && (s.outside.Some? ==> OutsideStop(s.outside.value) in past)
    ensures end.outside.Some? ==> OutsideStop(end.outside.value) in past + actions
    decreases |actions|
  {
    if actions == [] {
      assert past + actions == past;
    } else {
      assert past + actions == past + [actions[0]] + actions[1..];
      assert (past + [actions[0]])[|past|] == actions[0];
      OutsideWasStopped(past + [actions[0]], Apply(s, actions[0]), actions[1..], end);
    }
  }

  /** What a finished run's row says. A Stop from outside stands exactly when the runner's refresh
      no longer read "running": one that lands between that refresh and the last commit is
      overwritten. An interruption that marks the row failed also stands when the setup failed. */
  lemma OutsideStopStandsIff(inputs: seq<string>, actions: seq<Action>, s: State)
    requires Reachable(inputs, actions, s) && s.phase.Done? && s.outside.Some?
    ensures s.status == s.outside.value <==>
              !s.phase.seen.Running? || (s.outside == Some(Failed) && SetupFails in actions)
    ensures s.completedAt
  {
    LaunchedInv(inputs);
    RunKeepsInv(Launched(inputs), actions, s);
    RunKeepsSetup([], Launched(inputs), actions, s);
    assert [] + actions == actions;
  }

  /** And it can be, from every state in which the runner is about to commit a decision. */
  lemma LateStopIsOverwritten(inputs: seq<string>, actions: seq<Action>, s: State)
    requires Reachable(inputs, actions, s) && s.phase.Committing? && s.status.Running?
    ensures Enabled(s, OutsideStop(Cancelled)) && Enabled(Apply(s, OutsideStop(Cancelled)), FinalCommit)
    ensures var end := Apply(Apply(s, OutsideStop(Cancelled)), FinalCommit);
            end.status != Cancelled && s.phase.chosen == Some(end.status)
  {
    LaunchedInv(inputs);
    RunKeepsInv(Launched(inputs), actions, s);
  }

  /** Every launched run can get there: its setup fails, and it is about to commit "failed". */
  lemma LateStopHappens(inputs: seq<string>) returns (actions: seq<Action>, s: State)
    ensures Reachable(inputs, actions, s) && s.phase.Committing? && s.status.Running?
  {
    var s0 := Launched(inputs);
    var s1 := Apply(s0, SetupFails);
    var s2 := Apply(s1, Settle);
    var s3 := Apply(s2, WatchTest);
    s := Apply(s3, JoinWatcher);
    StepThen(s3, JoinWatcher, [], s);
    StepThen(s2, WatchTest, [JoinWatcher] + [], s);
    StepThen(s1, Settle, [WatchTest] + ([JoinWatcher] + []), s);
    StepThen(s0, SetupFails, [Settle] + ([WatchTest] + ([JoinWatcher] + [])), s);
    actions := [SetupFails] + ([Settle] + ([WatchTest] + ([JoinWatcher] + [])));
  }

  /** So can one that ran nothing wrong: here a run without inputs, about to commit "completed". */
  lemma LateStopHappensToACompletedRun() returns (actions: seq<Action>, s: State)
    ensures Reachable([], actions, s) && s.phase == Committing(Running, Some(Completed)) && s.status.Running?
  {
    var s0 := Launched([]);
    var s1 := Apply(s0, KeepInputs);
    var s2 := Apply(s1, Refresh);
    var s3 := Apply(s2, Settle);
    var s4 := Apply(s3, WatchTest);
    s := Apply(s4, JoinWatcher);
    StepThen(s4, JoinWatcher, [], s);
    StepThen(s3, WatchTest, [JoinWatcher] + [], s);
    StepThen(s2, Settle, [WatchTest] + ([JoinWatcher] + []), s);
    StepThen(s1, Refresh, [Settle] + ([WatchTest] + ([JoinWatcher] + [])), s);
    StepThen(s0, KeepInputs, [Refresh] + ([Settle] + ([WatchTest] + ([JoinWatcher] + []))), s);
    actions := [KeepInputs] + ([Refresh] + ([Settle] + ([WatchTest] + ([JoinWatcher] + []))));
  }

  lemma StepThen(s: State, a: Action, actions: seq<Action>, end: State)
    requires Enabled(s, a) && Reaches(Apply(s, a), actions, end)
    ensures Reaches(s, [a] + actions, end)
  {
    assert ([a] + actions)[1..] == actions;
  }

  /** A run of the protocol and one more step. */
  lemma {:induction false} ThenStep(s: State, actions: seq<Action>, end: State, a: Action)
    requires Reaches(s, actions, end) && Enabled(end, a)
    ensures Reaches(s, actions + [a], Apply(end, a))
    decreases |actions|
  {
    if actions == [] {
      StepThen(s, a, [], Apply(end, a));
      assert [a] + [] == [] + [a];
    } else {
      ThenStep(Apply(s, actions[0]), actions[1..], end, a);
      assert (actions + [a])[1..] == actions[1..] + [a];
    }
  }

  /** No deadlock: until the run is done some step other than an outside Stop can be taken. */
  lemma NeverStuck(inputs: seq<string>, actions: seq<Action>, s: State) returns (a: Action)
    requires Reachable(inputs, actions, s) && !s.phase.Done?
    ensures Enabled(s, a) && !a.OutsideStop?
  {
    LaunchedInv(inputs);
    RunKeepsInv(Launched(inputs), actions, s);
    match s.phase {
      case Setup => a := KeepInputs;
      case Refreshing(_, _) => a := Settle;
      case Committing(_, _) => a := FinalCommit;
      case Stopping(_, _) =>
        match s.watcher {
          case AtTest => a := WatchTest;
          case Reading => a := WatchRead;
          case Got(_) => a := WatchAct;
          case Asleep => a := WatchWake;
          case Ended => a := JoinWatcher;
        }
      case Gathering =>
        if forall i | 0 <= i < |s.tasks| :: Over(s.tasks[i]) {
          a := Refresh;
        } else if s.lockedBy.Some? {
          a := CommitEntry(s.lockedBy.value);
        } else {
          var i :| 0 <= i < |s.tasks| && !Over(s.tasks[i]);
          if s.tasks[i].InFlight? {
            a := FinishRun(i, "");
          } else if s.tasks[i].Finished? {
            a := TakeLock(i);
          } else if s.permits > 0 {
            a := Acquire(i);
          } else {
            var j := SomeInFlight(s.tasks);
            a := FinishRun(j, "");
          }
        }
    }
  }

  lemma {:induction false} SomeInFlight(tasks: seq<Task>) returns (j: nat)
    requires CountInFlight(tasks) > 0
    ensures j < |tasks| && tasks[j].InFlight?
  {
    if tasks[0].InFlight? {
      j := 0;
    } else {
      var k := SomeInFlight(tasks[1..]);
      j := k + 1;
    }
  }
}
