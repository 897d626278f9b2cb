/** The suite run's code on mutable fields: one method for each stretch between two awaits. Every
    object is, with the steps it has taken as a ghost, a run of the protocol in `SuiteRunner`,
    and every run of the protocol is a chain of calls (`Drive`).
 */
module SuiteRunCode {
  import opened Options
  import opened SuiteRunner

  class SuiteRun {
    // columns of the shared row
    var status: Status
    var inputs: seq<string>
    var results: seq<Entry>
    var completedAt: bool
    var heartbeats: nat
    // the runner's session and the tasks it started
    var session: seq<Entry>
    var phase: Phase
    var tasks: seq<Task>
    var semaphore: nat
    var writeLock: Option<nat>
    var stop: bool
    var cancelEvents: map<nat, bool>
    var watcher: Watcher
    ghost var outside: Option<Status>
    ghost var readsAfterStop: nat
    // what it was launched with and the steps taken since
    ghost var launched: seq<string>
    ghost var taken: seq<Action>

    ghost function Current(): State
      reads this
    {
      State(status, inputs, results, completedAt, heartbeats, session, phase, tasks, semaphore, writeLock,
            stop, cancelEvents, watcher, outside, readsAfterStop)
    }

    ghost predicate Valid()
      reads this
    {
      Reachable(launched, taken, Current())
    }

    ghost predicate Can(a: Action)
      reads this
    {
      Valid() && Enabled(Current(), a)
    }

    /** The method made step `a`, and the object is still a run of the protocol. */
    twostate predicate Took(a: Action)
      reads this
    {
      && old(Can(a)) && Valid()
      && launched == old(launched) && taken == old(taken) + [a]
      && Current() == Apply(old(Current()), a)
    }

    constructor (inputs: seq<string>)
      ensures Valid() && launched == inputs && taken == [] && Current() == Launched(inputs)
      ensures status == Running && this.inputs == inputs && results == [] && !completedAt && heartbeats == 0
      ensures tasks == [] && semaphore == 4 && writeLock.None? && !stop && cancelEvents == map[]
    {
      this.status, this.inputs, results, completedAt, heartbeats := Running, inputs, [], false, 0;
      session, phase, tasks, semaphore, writeLock := [], Setup, [], PARALLEL_RUNS, None;
      stop, cancelEvents, watcher, outside, readsAfterStop := false, map[], AtTest, None, 0;
      launched, taken := inputs, [];
    }

    ghost method Take(a: Action, was: State)
      requires Reachable(launched, taken, was) && Enabled(was, a) && Current() == Apply(was, a)
      modifies this`taken
      ensures Valid() && taken == old(taken) + [a]
    {
      ThenStep(Launched(launched), taken, was, a);
      taken := taken + [a];
    }

    /** Choosing the inputs and creating the tasks; `generated` is what a model wrote, if one was asked.
        One task for each input, and nothing runs yet. */
    method Begin(generated: Option<seq<string>>)
      requires Can(if generated.Some? then Generate(generated.value) else KeepInputs)
      modifies this
      ensures Took(if generated.Some? then Generate(generated.value) else KeepInputs)
      ensures inputs == if generated.Some? then generated.value else old(inputs)
      ensures |tasks| == |inputs| && CountInFlight(tasks) == 0
    {
      ghost var was := Current();
      if generated.Some? {
        inputs := generated.value;
      }
      tasks := seq(|inputs|, _ => Waiting);
      phase := Gathering;
      CountFresh(|tasks|, tasks);
      Take(if generated.Some? then Generate(generated.value) else KeepInputs, was);
    }

    /** The start of `run_one`, once the semaphore lets it in. Never more than four runs are in
        flight, and after stop nothing is launched or registered. */
    method Enter(i: nat)
      requires Can(Acquire(i))
      modifies this
      ensures Took(Acquire(i))
      ensures semaphore + CountInFlight(tasks) == PARALLEL_RUNS
      ensures if old(stop) then cancelEvents == old(cancelEvents) && CountInFlight(tasks) == CountInFlight(old(tasks))
              else i !in old(cancelEvents) && cancelEvents.Keys == old(cancelEvents).Keys + {i}
    {
      ghost var was := Current();
      Entered(launched, taken, was, i);
      semaphore := semaphore - 1;
      if stop {
        tasks := tasks[i := Skipped];
        semaphore := semaphore + 1;
      } else {
        cancelEvents := cancelEvents[i := false];
        tasks := tasks[i := InFlight];
      }
      assert Current() == Apply(was, Acquire(i));
      Take(Acquire(i), was);
    }

    /** The workflow run returned: its permit is free again. */
    method Leave(i: nat, outcome: string)
      requires Can(FinishRun(i, outcome))
      modifies this
      ensures Took(FinishRun(i, outcome))
      ensures tasks[i] == Finished(outcome)
      ensures CountInFlight(tasks) + 1 == CountInFlight(old(tasks)) && semaphore + CountInFlight(tasks) == PARALLEL_RUNS
    {
      ghost var was := Current();
      CountUpdate(tasks, i, Finished(outcome));
      tasks := tasks[i := Finished(outcome)];
      semaphore := semaphore + 1;
      Take(FinishRun(i, outcome), was);
      PermitsAddUp(launched, taken, Current());
    }

    /** Under the write lock: the session gains the task's first and only entry, the row nothing yet. */
    method Append(i: nat)
      requires Can(TakeLock(i))
      modifies this
      ensures Took(TakeLock(i))
      ensures old(tasks)[i].Finished? && session == old(session) + [Entry(i, old(tasks)[i].outcome)]
      ensures !HasIndex(old(session), i) && HasIndex(session, i) && results == old(results) == old(session)
    {
      ghost var was := Current();
      ResultsOfTasks(launched, taken, was);
      writeLock := Some(i);
      session := session + [Entry(i, tasks[i].outcome)];
      tasks := tasks[i := Writing];
      assert session[|session| - 1].index == i;
      Take(TakeLock(i), was);
    }

    /** The commit of that append, and the lock's release: the row gains the task's entry. */
    method Commit(i: nat)
      requires Can(CommitEntry(i))
      modifies this
      ensures Took(CommitEntry(i))
      ensures results == old(session)
      ensures |results| == |old(results)| + 1 && results[..|old(results)|] == old(results)
      ensures HasIndex(results, i) && forall p | 0 <= p < |old(results)| :: results[p].index != results[|old(results)|].index
    {
      ghost var was := Current();
      ResultsOfTasks(launched, taken, was);
      assert Listed(tasks[i]);
      results := session;
      writeLock := None;
      tasks := tasks[i := Recorded];
      Take(CommitEntry(i), was);
    }

    /** The refresh after the gather, or after the setup raised: no run is in flight any more, and
        what it reads is "running" or what somebody outside wrote. */
    method ReadStatus(failed: bool)
      requires Can(if failed then SetupFails else Refresh)
      modifies this
      ensures Took(if failed then SetupFails else Refresh)
      ensures CountInFlight(tasks) == 0
      ensures phase.Refreshing? && (phase.seen.Running? || outside == Some(phase.seen))
    {
      ghost var was := Current();
      phase := Refreshing(status, if failed then Failed else Completed);
      Take(if failed then SetupFails else Refresh, was);
      RefreshReads(launched, taken, Current());
    }

    /** Deciding on the status read, then the `finally` clause's `stop.set()`. What somebody outside
        wrote is not replaced if the refresh saw it, and every run got its result or was skipped. */
    method Decide()
      requires Can(Settle)
      modifies this
      ensures Took(Settle)
      ensures phase.Stopping? && stop && Remaining(watcher) <= 4
      ensures phase.seen != Running ==> phase.chosen.None? && outside == Some(phase.seen)
      ensures phase.chosen == Some(Completed) ==> forall i | 0 <= i < |tasks| :: tasks[i].Recorded?
    {
      ghost var was := Current();
      var chosen: Option<Status> := None;
      if phase.seen == Running {
        chosen := Some(phase.fallback);
      }
      stop := true;
      phase := Stopping(phase.seen, chosen);
      Take(Settle, was);
      DecisionStands(launched, taken, Current());
    }

    /** `await watcher` returns. */
    method AwaitWatcher()
      requires Can(JoinWatcher)
      modifies this
      ensures Took(JoinWatcher) && stop
    {
      ghost var was := Current();
      phase := Committing(phase.seen, phase.chosen);
      Take(JoinWatcher, was);
      DecisionStands(launched, taken, Current());
    }

    /** The last commit. A completed run has one entry for each input; a Stop from outside stands
        exactly when the refresh saw it, or the setup failed as well. */
    method Finish()
      requires Can(FinalCommit)
      modifies this
      ensures Took(FinalCommit)
      ensures completedAt && semaphore == PARALLEL_RUNS
      ensures status == if !phase.seen.Running? then phase.seen else if SetupFails in taken then Failed else Completed
      ensures status.Completed? ==> OneEntryEach(results, inputs)
      ensures outside.Some? ==>
                (status == outside.value <==> !phase.seen.Running? || (outside == Some(Failed) && SetupFails in taken))
    {
      ghost var was := Current();
      if phase.chosen.Some? {
        status := phase.chosen.value;
      }
      if !completedAt {
        completedAt := true;
      }
      phase := Done(phase.seen, phase.chosen);
      assert Current() == Apply(was, FinalCommit);
      Take(FinalCommit, was);
      FinishedRow(launched, taken, Current());
    }

    /** The watcher's `while not stop.is_set()`. */
    method WatchLoop()
      requires Can(WatchTest)
      modifies this
      ensures Took(WatchTest) && (watcher.Ended? <==> stop)
    {
      ghost var was := Current();
      watcher := if stop then Ended else Reading;
      Take(WatchTest, was);
    }

    /** The watcher's read of the row: at most one more of them after stop. */
    method ReadRow()
      requires Can(WatchRead)
      modifies this
      ensures Took(WatchRead) && watcher == Got(status) && readsAfterStop <= 1
    {
      ghost var was := Current();
      watcher := Got(status);
      readsAfterStop := readsAfterStop + if stop then 1 else 0;
      Take(WatchRead, was);
      WatcherReadsOnceAfterStop(launched, taken, Current());
    }

    method CancelAll()
      modifies this`stop, this`cancelEvents, this`watcher
      ensures stop && watcher.Ended? && cancelEvents == AllSet(old(cancelEvents))
    {
      stop := true;
      cancelEvents := AllSet(cancelEvents);
      watcher := Ended;
    }

    /** The watcher's turn after its read: heartbeat, or stop and cancel everything in flight. */
    method WatchRow()
      requires Can(WatchAct)
      modifies this
      ensures Took(WatchAct)
      ensures if old(watcher.status).Running? then stop == old(stop) && heartbeats == old(heartbeats) + 1
              else stop && watcher.Ended? && EveryRunCancelled(tasks, cancelEvents)
    {
      ghost var was := Current();
      if watcher.status != Running {
        EveryRunIsCancelled(launched, taken, was);
        CancelAll();
      } else {
        heartbeats := heartbeats + 1;
        watcher := Asleep;
      }
      assert Current() == Apply(was, WatchAct);
      Take(WatchAct, was);
    }

    /** The watcher's wait ends. */
    method Wake()
      requires Can(WatchWake)
      modifies this
      ensures Took(WatchWake) && watcher.AtTest?
    {
      ghost var was := Current();
      watcher := AtTest;
      Take(WatchWake, was);
    }

    /** Somebody else closes the row. */
    method StopFromOutside(to: Status)
      requires Can(OutsideStop(to))
      modifies this
      ensures Took(OutsideStop(to)) && !status.Running?
    {
      ghost var was := Current();
      status := to;
      completedAt := true;
      outside := Some(to);
      assert Current() == Apply(was, OutsideStop(to));
      Take(OutsideStop(to), was);
    }

    method Do(a: Action)
      requires Can(a)
      modifies this
      ensures Took(a)
    {
      match a
      case Generate(xs) => Begin(Some(xs));
      case KeepInputs => Begin(None);
      case SetupFails => ReadStatus(true);
      case Acquire(i) => Enter(i);
      case FinishRun(i, outcome) => Leave(i, outcome);
      case TakeLock(i) => Append(i);
      case CommitEntry(i) => Commit(i);
      case Refresh => ReadStatus(false);
      case Settle => Decide();
      case JoinWatcher => AwaitWatcher();
      case FinalCommit => Finish();
      case WatchTest => WatchLoop();
      case WatchRead => ReadRow();
      case WatchAct => WatchRow();
      case WatchWake => Wake();
      case OutsideStop(to) => StopFromOutside(to);
    }
  }

  /** Every workflow run in flight has a cancel event, and it is set. */
  ghost predicate EveryRunCancelled(tasks: seq<Task>, events: map<nat, bool>) {
    forall i | 0 <= i < |tasks| && tasks[i].InFlight? :: i in events && events[i]
  }

  /** What entering the semaphore does to the permits and the cancel events. */
  lemma Entered(inputs: seq<string>, actions: seq<Action>, s: State, i: nat)
    requires Reachable(inputs, actions, s) && Enabled(s, Acquire(i))
    ensures var n := Apply(s, Acquire(i));
            && n.permits + CountInFlight(n.tasks) == PARALLEL_RUNS
            && if s.stop then n.cancelEvents == s.cancelEvents && CountInFlight(n.tasks) == CountInFlight(s.tasks)
               else i !in s.cancelEvents && n.cancelEvents.Keys == s.cancelEvents.Keys + {i}
  {
    PermitsAddUp(inputs, actions, s);
    EventsOfTasks(inputs, actions, s);
    CountUpdate(s.tasks, i, Apply(s, Acquire(i)).tasks[i]);
  }

  lemma EveryRunIsCancelled(inputs: seq<string>, actions: seq<Action>, s: State)
    requires Reachable(inputs, actions, s) && s.watcher.Got? && !s.watcher.status.Running?
    ensures EveryRunCancelled(s.tasks, AllSet(s.cancelEvents))
  {
    EventsOfTasks(inputs, actions, s);
  }

  /** What a finished run's row holds. */
  lemma FinishedRow(inputs: seq<string>, actions: seq<Action>, s: State)
    requires Reachable(inputs, actions, s) && s.phase.Done?
    ensures s.completedAt && s.permits == PARALLEL_RUNS
    ensures s.status == if !s.phase.seen.Running? then s.phase.seen else if SetupFails in actions then Failed else Completed
    ensures s.status.Completed? ==> OneEntryEach(s.results, s.inputs)
    ensures s.outside.Some? ==>
              (s.status == s.outside.value <==> !s.phase.seen.Running? || (s.outside == Some(Failed) && SetupFails in actions))
  {
    AtMostFourInFlight(inputs, actions, s);
    if s.status.Completed? { CompletedRunIsWhole(inputs, actions, s); }
    if s.outside.Some? { OutsideStopStandsIff(inputs, actions, s); }
    FinishedStatusIs(inputs, actions, s);
    LaunchedInv(inputs);
    RunKeepsInv(Launched(inputs), actions, s);
  }

  /** What the refresh leaves: no run in flight, and a status that is "running" or from outside. */
  lemma RefreshReads(inputs: seq<string>, actions: seq<Action>, s: State)
    requires Reachable(inputs, actions, s) && s.phase.Refreshing?
    ensures CountInFlight(s.tasks) == 0 && (s.phase.seen.Running? || s.outside == Some(s.phase.seen))
  {
    LaunchedInv(inputs);
    RunKeepsInv(Launched(inputs), actions, s);
    NoneInFlight(s.tasks);
  }

  /** What is decided: "completed" only when every task recorded its result, nothing when somebody
      outside had closed the row. */
  lemma DecisionStands(inputs: seq<string>, actions: seq<Action>, s: State)
    requires Reachable(inputs, actions, s) && (s.phase.Stopping? || s.phase.Committing?)
    ensures s.stop
    ensures s.phase.seen != Running ==> s.phase.chosen.None? && s.outside == Some(s.phase.seen)
    ensures s.phase.chosen == Some(Completed) ==> forall i | 0 <= i < |s.tasks| :: s.tasks[i].Recorded?
  {
    LaunchedInv(inputs);
    RunKeepsInv(Launched(inputs), actions, s);
  }

  /** Every run of the protocol is a chain of calls, and ends in the same state; so every chain
      has what is proved of every run. */
  method Drive(inputs: seq<string>, schedule: seq<Action>, ghost end: State) returns (run: SuiteRun)
    requires Reachable(inputs, schedule, end)
    ensures run.Valid() && run.launched == inputs && run.taken == schedule && run.Current() == end
    ensures CountInFlight(run.tasks) <= 4
    ensures run.phase.Done? && run.status.Completed? ==> OneEntryEach(run.results, run.inputs)
    ensures forall p | 0 <= p < |run.results| :: FinishRun(run.results[p].index, run.results[p].outcome) in schedule
  {
    run := new SuiteRun(inputs);
    for k := 0 to |schedule|
      invariant fresh(run) && run.Valid() && run.launched == inputs && run.taken == schedule[..k]
      invariant Reaches(run.Current(), schedule[k..], end)
    {
      assert schedule[k..][0] == schedule[k] && schedule[k..][1..] == schedule[k + 1..];
      run.Do(schedule[k]);
      assert schedule[..k + 1] == schedule[..k] + [schedule[k]];
    }
    assert schedule[|schedule|..] == [] && schedule[..|schedule|] == schedule;
    AtMostFourInFlight(inputs, schedule, end);
    EntriesCarryTheirOutcomes(inputs, schedule, end);
    if run.phase.Done? && run.status.Completed? { CompletedRunIsWhole(inputs, schedule, end); }
  }
}
