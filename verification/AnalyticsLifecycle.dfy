/** Runs that pause for a person and finish later: the pause is counted once, the outcome is
    written without counting, in the bucket the paused run's snapshot remembers.
 */
module AnalyticsLifecycle {
  import opened Options
  import opened Analytics
  import opened AnalyticsRepair

  /** A Python datetime: microseconds of local time, and its UTC offset unless it is naive. */
  datatype Moment = Naive(local: int) | Aware(local: int, offset: int)

  /** What a snapshot dict holds under one key. `Other` is a non-string, non-datetime value and
      what `datetime.fromisoformat(str(value))` makes of it. */
  datatype Raw = Absent | Falsy | At(moment: Moment) | Text(parsed: Option<Moment>) | Other(asText: Option<Moment>)

  /** The values under `analytics_bucket_time` and `analytics_bucket_start`. */
  datatype Snapshot = Snapshot(time: Raw, start: Raw)

  function ToUtc(m: Moment): Instant {
    match m
    case Naive(local) => local
    case Aware(local, offset) => local - offset
  }

  function NormalizeBucketStart(m: Moment): Moment { Aware(HourStart(ToUtc(m)), 0) }

  predicate Truthy(r: Raw) { !r.Absent? && !r.Falsy? }

  /** `snapshot.get("analytics_bucket_time") or snapshot.get("analytics_bucket_start")` */
  function Pick(s: Snapshot): Raw { if Truthy(s.time) then s.time else s.start }

  function MomentOf(r: Raw): Option<Moment> {
    match r
    case At(m) => Some(m)
    case Text(p) => p
    case _ => None
  }

  /** The bucket time a snapshot remembers, if it can be read. */
  function Remembered(s: Snapshot): Option<Moment> { MomentOf(Pick(s)) }

  // ---------------------------------------------------------------- the bucket resolver

  function Or(a: Option<Moment>, b: Moment): Moment { if a.Some? then a.value else b }

  function Resolved(workflow: Option<nat>, snapshot: Option<Snapshot>, historyStartedAt: Option<Moment>,
                    candidate: Option<Moment>, now: Moment, alreadyCounted: bool): Option<Moment>
  {
    if !alreadyCounted then Some(Or(historyStartedAt, Or(candidate, now)))
    else if snapshot.None? || Remembered(snapshot.value).None? then None
    else if workflow.None? then Remembered(snapshot.value)
    else Some(NormalizeBucketStart(Remembered(snapshot.value).value))
  }

  /** `resolve_execution_analytics_bucket`. Whatever rows the table holds, the answer is fixed
      by the snapshot alone; the stored bucket it looks up is the same instant. */
  method ResolveBucket(rows: seq<Row>, workflow: Option<nat>, owner: Option<nat>, candidate: Option<Moment>,
                       snapshot: Option<Snapshot>, historyStartedAt: Option<Moment>, now: Moment, alreadyCounted: bool)
    returns (bucket: Option<Moment>)
    ensures bucket == Resolved(workflow, snapshot, historyStartedAt, candidate, now, alreadyCounted)
  {
    if !alreadyCounted {
      return Some(Or(historyStartedAt, Or(candidate, now)));
    }
    var initial: Option<Moment> := None;
    var hasSnapshotBucket := false;
    if snapshot.Some? {
      var raw := Pick(snapshot.value);
      if Truthy(raw) {
        if raw.At? {
          initial, hasSnapshotBucket := Some(raw.moment), true;
        } else if raw.Text? && raw.parsed.Some? {
          initial, hasSnapshotBucket := raw.parsed, true;
        }
      }
    }
    if !hasSnapshotBucket {
      return None;
    }
    if workflow.None? {
      return initial;
    }
    var target := NormalizeBucketStart(initial.value);
    var bucketMap: map<Instant, Moment> := map[];
    for i := 0 to |rows|
      invariant forall t | t in bucketMap :: bucketMap[t] == Aware(t, 0)
    {
      if rows[i].scope.workflow == workflow && rows[i].scope.owner == owner {
        var stored := Aware(rows[i].scope.bucket, 0);
        bucketMap := bucketMap[ToUtc(stored) := stored];
      }
    }
    if ToUtc(target) in bucketMap {
      return Some(bucketMap[ToUtc(target)]);
    }
    return Some(target);
  }

  /** The instant a datetime stands for: a naive one is taken as UTC. */
  predicate IsInstant(m: Moment, t: Instant) {
    match m
    case Naive(local) => t == local
    case Aware(local, offset) => t + offset == local
  }

  /** The key that decides is `analytics_bucket_time` when it holds anything, else `analytics_bucket_start`. */
  predicate Decides(s: Snapshot, r: Raw) {
    r == if s.time.Absent? || s.time.Falsy? then s.start else s.time
  }

  /** Case by case, where a run is counted: one that was not counted yet at its start, else at the
      candidate, else now; one that was counted in the hour its snapshot remembers as a datetime or
      as text that reads as one, and nowhere when there is none. */
  lemma ResolvedCases(workflow: Option<nat>, snapshot: Option<Snapshot>, history: Option<Moment>,
                      candidate: Option<Moment>, now: Moment, r: Raw, m: Moment, t: Instant)
    ensures Resolved(workflow, snapshot, Some(m), candidate, now, false) == Some(m)
    ensures Resolved(workflow, snapshot, None, Some(m), now, false) == Some(m)
    ensures Resolved(workflow, snapshot, None, None, m, false) == Some(m)
    ensures Resolved(workflow, None, history, candidate, now, true) == None
    ensures snapshot.Some? && Decides(snapshot.value, r) && !r.At? && !(r.Text? && r.parsed.Some?) ==>
              Resolved(workflow, snapshot, history, candidate, now, true) == None
    ensures snapshot.Some? && Decides(snapshot.value, r) && (r == At(m) || r == Text(Some(m))) && workflow.None? ==>
              Resolved(workflow, snapshot, history, candidate, now, true) == Some(m)
    ensures snapshot.Some? && Decides(snapshot.value, r) && (r == At(m) || r == Text(Some(m))) && workflow.Some? && IsInstant(m, t) ==>
              var to := Resolved(workflow, snapshot, history, candidate, now, true);
              && to.Some? && to.value.Aware? && to.value.offset == 0
              && to.value.local % MICROS_PER_HOUR == 0 && to.value.local <= t < to.value.local + MICROS_PER_HOUR
  {
    assert t - t % MICROS_PER_HOUR == (t / MICROS_PER_HOUR) * MICROS_PER_HOUR;
  }

  /** An already-counted outcome lands in the very hour its snapshot remembers. */
  lemma ResolvedLandsInRememberedHour(workflow: Option<nat>, s: Snapshot, history: Option<Moment>,
                                      candidate: Option<Moment>, now: Moment)
    ensures var r := Resolved(workflow, Some(s), history, candidate, now, true);
            && (r.Some? <==> Remembered(s).Some?)
            && (r.Some? ==> HourStart(ToUtc(r.value)) == HourStart(ToUtc(Remembered(s).value)))
  {
    if Remembered(s).Some? { HourStartIdempotent(ToUtc(Remembered(s).value)); }
  }

  lemma HourStartIdempotent(t: Instant)
    ensures HourStart(HourStart(t)) == HourStart(t)
  {
    assert t - t % MICROS_PER_HOUR == (t / MICROS_PER_HOUR) * MICROS_PER_HOUR;
  }

  // ---------------------------------------------------------------- carrying the bucket over pauses

  /** The resume step's hand-over from the old snapshot to the resumed run's new one. */
  function Carried(was: Snapshot, resumed: Snapshot): Snapshot {
    if !was.time.Absent? && resumed.time.Absent? then resumed.(time := was.time)
    else if !was.start.Absent? && resumed.start.Absent? && resumed.time.Absent? then resumed.(start := was.start)
    else Snapshot(Absent, Absent)
  }

  function AsText(r: Raw): Raw {
    match r
    case At(m) => Text(Some(m))
    case Other(p) => Text(p)
    case _ => r
  }

  /** Persisting a further pause: a known bucket is kept as text, anything else is removed. */
  function Persisted(s: Snapshot): Snapshot {
    if Truthy(s.time) || Truthy(s.start) then Snapshot(AsText(Pick(s)), Absent) else Snapshot(Absent, Absent)
  }

  /** A further pause keeps the remembered bucket exactly when the resumed run's own snapshot
      does not already hold the field being carried. */
  lemma PauseAgainKeepsBucketIff(s: Snapshot, next: Snapshot)
    requires Remembered(s).Some?
    ensures Remembered(Persisted(Carried(s, next))) == Remembered(s) <==>
      if s.time.Absent? then next.time.Absent? && next.start.Absent?
      else if s.time.Falsy? then next.time.Absent? && MomentOf(AsText(next.start)) == Remembered(s)
      else next.time.Absent?
    ensures Remembered(Persisted(Carried(s, next))).Some? && !s.time.Falsy? ==>
              Remembered(Persisted(Carried(s, next))) == Remembered(s)
  {
  }

  // ---------------------------------------------------------------- whole runs

  /** A paused run; `home` is the hour its pause was counted in. */
  datatype Paused = Paused(workflow: Option<nat>, owner: Option<nat>, home: Instant, snapshot: Snapshot) {
    function Key(): Scope { Scope(workflow, owner, home) }
  }

  /** `other` lists the scopes of counted runs that ended as neither success nor error, or
      whose outcome was not written. */
  datatype World = World(log: seq<Event>, paused: seq<Paused>, other: seq<Scope>)

  datatype Step =
    | Complete(e: Event)
    | FirstPause(e: Event)
    | PauseAgain(i: nat, next: Snapshot)
    | Outcome(i: nat, id: nat, name: string, status: string, latencyMs: real,
              history: Option<Moment>, candidate: Option<Moment>, now: Moment)

  predicate Decisive(status: string) { status == "success" || status == "error" }

  predicate Enabled(w: World, s: Step) {
    match s
    case Complete(e) => e.counted
    case FirstPause(e) => e.counted && e.status == "pending"
    case PauseAgain(i, _) => i < |w.paused|
    case Outcome(i, _, _, _, _, _, _, _) => i < |w.paused|
  }

  function OutcomeEvent(p: Paused, s: Step): Option<Event>
    requires s.Outcome?
  {
    match Resolved(p.workflow, Some(p.snapshot), s.history, s.candidate, s.now, true)
    case None => None
    case Some(at) => Some(Event(s.id, p.workflow, p.owner, s.name, s.status, s.latencyMs, ToUtc(at), false))
  }

  function Next(w: World, s: Step): World
    requires Enabled(w, s)
  {
    match s
    case Complete(e) =>
      w.(log := w.log + [e], other := w.other + if Decisive(e.status) then [] else [ScopeOf(e)])
    case FirstPause(e) =>
      w.(log := w.log + [e],
         paused := w.paused + [Paused(e.workflow, e.owner, HourStart(e.runAt),
                                      Snapshot(Text(Some(Aware(e.runAt, 0))), Absent))])
    case PauseAgain(i, next) =>
      w.(paused := w.paused[i := w.paused[i].(snapshot := Persisted(Carried(w.paused[i].snapshot, next)))])
    case Outcome(i, _, _, status, _, _, _, _) =>
      var p := w.paused[i];
      var written := OutcomeEvent(p, s);
      World(if written.Some? then w.log + [written.value] else w.log,
            w.paused[..i] + w.paused[i + 1..],
            w.other + if written.Some? && Decisive(status) then [] else [p.Key()])
  }

  ghost predicate IsRun(w: World, steps: seq<Step>, end: World)
    decreases |steps|
  {
    if steps == [] then w == end
    else Enabled(w, steps[0]) && IsRun(Next(w, steps[0]), steps[1..], end)
  }

  const START := World([], [], [])

  ghost function CountPaused(paused: seq<Paused>, k: Scope): nat {
    if paused == [] then 0
    else (if paused[0].Key() == k then 1 else 0) + CountPaused(paused[1..], k)
  }

  ghost function CountScope(scopes: seq<Scope>, k: Scope): nat {
    if scopes == [] then 0
    else (if scopes[0] == k then 1 else 0) + CountScope(scopes[1..], k)
  }

  /** Every counted execution of a scope is a success, an error, still paused, or ended otherwise. */
  ghost predicate Conserved(w: World, k: Scope) {
    var c := LogSum(w.log, k);
    k.workflow.Some? || k.owner.Some? ==>
      c.executions == c.successes + c.errors + CountPaused(w.paused, k) + CountScope(w.other, k)
  }

  ghost predicate Homed(w: World) {
    forall p | p in w.paused ::
      && (p.snapshot.time.Text? || p.snapshot.time.Absent?)
      && p.snapshot.start.Absent?
      && (Remembered(p.snapshot).Some? ==> HourStart(ToUtc(Remembered(p.snapshot).value)) == p.home)
  }

  lemma {:induction false} CountPausedSplit(a: seq<Paused>, b: seq<Paused>, k: Scope)
    ensures CountPaused(a + b, k) == CountPaused(a, k) + CountPaused(b, k)
  {
    if a == [] {
      assert a + b == b;
    } else {
      assert (a + b)[1..] == a[1..] + b;
      CountPausedSplit(a[1..], b, k);
    }
  }

  lemma {:induction false} CountScopeAppend(a: seq<Scope>, b: seq<Scope>, k: Scope)
    ensures CountScope(a + b, k) == CountScope(a, k) + CountScope(b, k)
  {
    if a == [] {
      assert a + b == b;
    } else {
      assert (a + b)[1..] == a[1..] + b;
      CountScopeAppend(a[1..], b, k);
    }
  }

  lemma LogSumAppend(log: seq<Event>, e: Event, k: Scope)
    ensures LogSum(log + [e], k) ==
      if Recorded(e) && ScopeOf(e) == k then Add(LogSum(log, k), Contribution(e)) else LogSum(log, k)
  {
    assert (log + [e])[..|log|] == log;
  }

  lemma CountPausedAt(paused: seq<Paused>, i: nat, k: Scope)
    requires i < |paused|
    ensures CountPaused(paused, k) ==
      CountPaused(paused[..i], k) + (if paused[i].Key() == k then 1 else 0) + CountPaused(paused[i + 1..], k)
  {
    assert paused == paused[..i] + ([paused[i]] + paused[i + 1..]);
    CountPausedSplit(paused[..i], [paused[i]] + paused[i + 1..], k);
    CountPausedSplit([paused[i]], paused[i + 1..], k);
  }

  lemma CompleteConserves(w: World, e: Event, k: Scope)
    requires Enabled(w, Complete(e)) && Conserved(w, k)
    ensures Conserved(Next(w, Complete(e)), k)
  {
    LogSumAppend(w.log, e, k);
    CountScopeAppend(w.other, [ScopeOf(e)], k);
    assert w.other + [] == w.other;
  }

  lemma FirstPauseConserves(w: World, e: Event, k: Scope)
    requires Enabled(w, FirstPause(e)) && Conserved(w, k)
    ensures Conserved(Next(w, FirstPause(e)), k)
  {
    LogSumAppend(w.log, e, k);
    CountPausedSplit(w.paused, [Next(w, FirstPause(e)).paused[|w.paused|]], k);
  }

  lemma PauseAgainConserves(w: World, i: nat, next: Snapshot, k: Scope)
    requires Enabled(w, PauseAgain(i, next)) && Conserved(w, k)
    ensures Conserved(Next(w, PauseAgain(i, next)), k)
  {
    var after := Next(w, PauseAgain(i, next));
    CountPausedAt(w.paused, i, k);
    CountPausedAt(after.paused, i, k);
    assert after.paused[..i] == w.paused[..i] && after.paused[i + 1..] == w.paused[i + 1..];
  }

  lemma OutcomeConserves(w: World, s: Step, k: Scope)
    requires s.Outcome? && Enabled(w, s) && Homed(w) && Conserved(w, k)
    ensures Conserved(Next(w, s), k)
  {
    var p := w.paused[s.i];
    CountPausedAt(w.paused, s.i, k);
    CountPausedSplit(w.paused[..s.i], w.paused[s.i + 1..], k);
    CountScopeAppend(w.other, [p.Key()], k);
    assert w.other + [] == w.other;
    OutcomeLands(w, s);
    var written := OutcomeEvent(p, s);
    if written.Some? { LogSumAppend(w.log, written.value, k); }
  }

  /** An outcome that is written goes to the row the pause was counted in. */
  lemma OutcomeLands(w: World, s: Step)
    requires s.Outcome? && Enabled(w, s) && Homed(w)
    ensures var p := w.paused[s.i];
            var written := OutcomeEvent(p, s);
            written.Some? ==> ScopeOf(written.value) == p.Key()
  {
    var p := w.paused[s.i];
    ResolvedLandsInRememberedHour(p.workflow, p.snapshot, s.history, s.candidate, s.now);
  }

  lemma StepConserves(w: World, s: Step, k: Scope)
    requires Enabled(w, s) && Homed(w) && Conserved(w, k)
    ensures Conserved(Next(w, s), k)
  {
    match s {
      case Complete(e) => CompleteConserves(w, e, k);
      case FirstPause(e) => FirstPauseConserves(w, e, k);
      case PauseAgain(i, next) => PauseAgainConserves(w, i, next, k);
      case Outcome(_, _, _, _, _, _, _, _) => OutcomeConserves(w, s, k);
    }
  }

  lemma StepKeepsHome(w: World, s: Step)
    requires Enabled(w, s) && Homed(w)
    ensures Homed(Next(w, s))
  {
    match s {
      case PauseAgain(i, next) =>
        var was := w.paused[i].snapshot;
        assert Remembered(Persisted(Carried(was, next))).Some? ==> Remembered(Persisted(Carried(was, next))) == Remembered(was);
      case _ =>
    }
  }

  lemma {:induction false} RunConserves(w: World, steps: seq<Step>, end: World, k: Scope)
    requires IsRun(w, steps, end) && Homed(w) && Conserved(w, k)
    ensures Conserved(end, k)
    decreases |steps|
  {
    if steps != [] {
      StepConserves(w, steps[0], k);
      StepKeepsHome(w, steps[0]);
      RunConserves(Next(w, steps[0]), steps[1..], end, k);
    }
  }

  /** Over every run of pauses, resumes and outcomes, however far apart, no row of the table
      reports more outcomes than executions; what is missing is paused or ended otherwise. */
  lemma OutcomesNeverExceedExecutions(steps: seq<Step>, end: World, r: Row)
    requires IsRun(START, steps, end) && r in Replay(false, end.log)
    ensures r.counters.executions ==
              r.counters.successes + r.counters.errors + CountPaused(end.paused, r.scope) + CountScope(end.other, r.scope)
  {
    RunConserves(START, steps, end, r.scope);
    ReplayRefinesLog(false, end.log);
  }

  /** Under the old key every pause of a scope that holds a NULL is followed, when it succeeds,
      by a row with an outcome and no execution; repairing that table removes it. */
  lemma OldKeySplitsAnOutcome(pause: Event, id: nat, now: Moment) returns (steps: seq<Step>, end: World, r: Row)
    requires Recorded(pause) && ScopeOf(pause).HasNull() && pause.counted && pause.status == "pending"
    ensures IsRun(START, steps, end)
    ensures r in Replay(true, end.log) && r.scope == ScopeOf(pause) && r.counters.successes > r.counters.executions
  {
    var done := Outcome(0, id, pause.name, "success", 0.0, None, None, now);
    var w1 := Next(START, FirstPause(pause));
    end := Next(w1, done);
    steps := [FirstPause(pause)] + [done];
    TwoSteps(START, FirstPause(pause), done);
    ResolvedLandsInRememberedHour(pause.workflow, w1.paused[0].snapshot, None, None, now);
    var e := OutcomeEvent(w1.paused[0], done).value;
    assert ScopeOf(e) == ScopeOf(pause);
    r := FreshRow(e);
    NullScopeInserts(w1.log, e);
  }

  /** Under either key a row whose scope holds no NULL is the whole sum of its scope. */
  lemma {:induction false} NullFreeRowIsItsSum(rows: seq<Row>, i: nat)
    requires KeyHolds(rows, true) && i < |rows| && !rows[i].scope.HasNull()
    ensures Sum(rows, rows[i].scope) == rows[i].counters
  {
    if i == 0 {
      SumOfAbsentScope(rows[1..], rows[0].scope);
    } else {
      NullFreeRowIsItsSum(rows[1..], i - 1);
    }
  }

  /** So under the old key, too, a row whose scope holds no NULL balances in every run. */
  lemma NullFreeRowsBalance(steps: seq<Step>, end: World, r: Row)
    requires IsRun(START, steps, end) && r in Replay(true, end.log) && !r.scope.HasNull()
    ensures r.counters.executions ==
              r.counters.successes + r.counters.errors + CountPaused(end.paused, r.scope) + CountScope(end.other, r.scope)
  {
    RunConserves(START, steps, end, r.scope);
    ReplayRefinesLog(true, end.log);
    var rows := Replay(true, end.log);
    var i :| 0 <= i < |rows| && rows[i] == r;
    NullFreeRowIsItsSum(rows, i);
    assert View(rows)[r.scope] == LogView(end.log)[r.scope];
  }

  /** In every run under the old key the rows of this scope have no more outcomes than executions. */
  ghost predicate OldKeyBalances(k: Scope) {
    forall steps: seq<Step>, end: World, r: Row | IsRun(START, steps, end) && r in Replay(true, end.log) && r.scope == k ::
      r.counters.successes + r.counters.errors <= r.counters.executions
  }

  /** The old key served exactly the scopes that hold no NULL. */
  lemma OldKeyBalancesIff(k: Scope)
    requires (k.workflow.Some? || k.owner.Some?) && k.bucket == HourStart(k.bucket)
    ensures OldKeyBalances(k) <==> k.workflow.Some? && k.owner.Some?
  {
    if k.HasNull() {
      var pause := Event(0, k.workflow, k.owner, "", "pending", 0.0, k.bucket, true);
      var steps, end, r := OldKeySplitsAnOutcome(pause, 0, Aware(k.bucket, 0));
    } else {
      forall steps: seq<Step>, end: World, r: Row | IsRun(START, steps, end) && r in Replay(true, end.log) && r.scope == k
        ensures r.counters.successes + r.counters.errors <= r.counters.executions
      {
        NullFreeRowsBalance(steps, end, r);
      }
    }
  }

  lemma TwoSteps(w: World, s: Step, t: Step)
    requires Enabled(w, s) && Enabled(Next(w, s), t)
    ensures IsRun(w, [s] + [t], Next(Next(w, s), t))
  {
    assert ([s] + [t])[1..] == [t];
    assert [t][1..] == [];
    assert IsRun(Next(w, s), [t], Next(Next(w, s), t));
  }

  lemma NullScopeInserts(log: seq<Event>, e: Event)
    requires Recorded(e) && ScopeOf(e).HasNull()
    ensures FreshRow(e) in Replay(true, log + [e])
  {
    assert (log + [e])[..|log|] == log;
  }

  lemma RepairedRunBalances(steps: seq<Step>, end: World, r: Row)
    requires IsRun(START, steps, end) && FreshIds(end.log) && r in Repaired(Replay(true, end.log))
    ensures r.counters.successes + r.counters.errors <= r.counters.executions
  {
    RepairEqualsFixedFromStart(end.log);
    var s := Partner(Repaired(Replay(true, end.log)), Replay(false, end.log), r);
    OutcomesNeverExceedExecutions(steps, end, s);
  }

  lemma Partner(a: seq<Row>, b: seq<Row>, r: Row) returns (s: Row)
    requires SameRows(a, b) && r in a
    ensures s in b && s.scope == r.scope && s.counters == r.counters
  {
    s :| s in b && s.scope == r.scope && s.counters == r.counters;
  }
}
