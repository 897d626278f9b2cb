/** What the counters of a row mean, in terms of the runs of its hour: each counter is a count or a
    sum over the log, and the name and the last run are those of the run recorded last.
 */
module AnalyticsCounts {
  import opened Options
  import opened Analytics
  import opened AnalyticsRepair

  /** The run belongs to the workflow, the owner and the hour of the scope. */
  predicate RunOf(e: Event, k: Scope) {
    && (e.workflow.Some? || e.owner.Some?)
    && e.workflow == k.workflow && e.owner == k.owner
    && k.bucket % 3_600_000_000 == 0 && k.bucket <= e.runAt < k.bucket + 3_600_000_000
  }

  predicate Counted(e: Event) { e.counted }

  predicate Succeeded(e: Event) { e.status == "success" }

  predicate Erred(e: Event) { e.status == "error" }

  predicate Timed(e: Event) { e.counted && e.latencyMs > 0.0 }

  /** How many of the scope's runs have the property. */
  function Count(log: seq<Event>, k: Scope, p: Event -> bool): nat {
    if log == [] then 0
    else
      var n := |log| - 1;
      Count(log[..n], k, p) + if RunOf(log[n], k) && p(log[n]) then 1 else 0
  }

  /** The latencies of the scope's timed runs, added up. */
  function TotalLatency(log: seq<Event>, k: Scope): real {
    if log == [] then 0.0
    else
      var n := |log| - 1;
      TotalLatency(log[..n], k) + if RunOf(log[n], k) && Timed(log[n]) then log[n].latencyMs else 0.0
  }

  ghost predicate IsLargestLatency(log: seq<Event>, k: Scope, most: real) {
    && (forall i | 0 <= i < |log| && RunOf(log[i], k) && Timed(log[i]) :: log[i].latencyMs <= most)
    && (most == 0.0 || exists i :: 0 <= i < |log| && RunOf(log[i], k) && Timed(log[i]) && log[i].latencyMs == most)
  }

  ghost predicate CountsOf(log: seq<Event>, k: Scope, c: Counters) {
    && c.executions == Count(log, k, Counted)
    && c.successes == Count(log, k, Succeeded)
    && c.errors == Count(log, k, Erred)
    && c.samples == Count(log, k, Timed)
    && c.totalLatency == TotalLatency(log, k)
    && IsLargestLatency(log, k, c.maxLatency)
  }

  lemma InScopeIff(e: Event, k: Scope)
    requires k.bucket % MICROS_PER_HOUR == 0
    ensures InScope(e, k) <==> RunOf(e, k)
  {
    HourOf(e.runAt, k.bucket);
  }

  /** The hour an instant is counted in starts on the hour and contains it. */
  lemma HourOf(t: Instant, start: Instant)
    requires start % MICROS_PER_HOUR == 0
    ensures HourStart(t) == start <==> start <= t < start + MICROS_PER_HOUR
    ensures HourStart(t) % MICROS_PER_HOUR == 0
  {
    var q := t / MICROS_PER_HOUR;
    assert t - t % MICROS_PER_HOUR == q * MICROS_PER_HOUR;
    assert start == start / MICROS_PER_HOUR * MICROS_PER_HOUR;
  }

  lemma {:induction false} LogSumCounts(log: seq<Event>, k: Scope)
    requires k.bucket % MICROS_PER_HOUR == 0
    ensures CountsOf(log, k, LogSum(log, k))
  {
    if log != [] {
      var n := |log| - 1;
      LogSumCounts(log[..n], k);
      InScopeIff(log[n], k);
      LargestOfOneMore(log, k, LogSum(log[..n], k).maxLatency);
    }
  }

  lemma LargestOfOneMore(log: seq<Event>, k: Scope, most: Latency)
    requires log != [] && IsLargestLatency(log[..|log| - 1], k, most)
    ensures var e := log[|log| - 1];
            IsLargestLatency(log, k, if RunOf(e, k) && Timed(e) && most < e.latencyMs then e.latencyMs else most)
  {
    var n := |log| - 1;
    if i :| 0 <= i < n && RunOf(log[..n][i], k) && Timed(log[..n][i]) && log[..n][i].latencyMs == most {
      assert log[i] == log[..n][i];
    }
    assert forall i | 0 <= i < n :: log[i] == log[..n][i];
  }

  lemma {:induction false} ScopesOnTheHour(log: seq<Event>, k: Scope)
    requires k in LogScopes(log)
    ensures k.bucket % MICROS_PER_HOUR == 0
  {
    var e :| e in log && Recorded(e) && ScopeOf(e) == k;
    HourOf(e.runAt, 0);
  }

  /** Every row of the table counts the runs of its workflow, owner and hour: the successes are
      those that ended "success", the errors those that ended "error", the executions those that
      were counted; the samples, total and largest latency are those of the counted runs that took
      any time. And every run has its row. */
  lemma RowsCountTheirRuns(log: seq<Event>)
    ensures forall r | r in Replay(false, log) :: CountsOf(log, r.scope, r.counters)
    ensures forall e | e in log && (e.workflow.Some? || e.owner.Some?) :: exists r :: r in Replay(false, log) && RunOf(e, r.scope)
  {
    ReplayRefinesLog(false, log);
    ScopesOfView(Replay(false, log), log);
    forall r | r in Replay(false, log) ensures CountsOf(log, r.scope, r.counters) {
      ScopesOnTheHour(log, r.scope);
      LogSumCounts(log, r.scope);
    }
    forall e | e in log && (e.workflow.Some? || e.owner.Some?)
      ensures exists r :: r in Replay(false, log) && RunOf(e, r.scope)
    {
      var k := ScopeOf(e);
      assert k in LogScopes(log);
      var r :| r in Replay(false, log) && r.scope == k;
      ScopesOnTheHour(log, k);
      InScopeIff(e, k);
    }
  }

  lemma SumsCount(rows: seq<Row>, log: seq<Event>, k: Scope)
    requires View(rows) == LogView(log) && k in Scopes(rows)
    ensures CountsOf(log, k, Sum(rows, k))
  {
    ScopesOfView(rows, log);
    assert View(rows)[k] == LogView(log)[k];
    ScopesOnTheHour(log, k);
    LogSumCounts(log, k);
  }

  /** The same for the table that the old key built, once it is repaired. */
  lemma RepairedRowsCountTheirRuns(log: seq<Event>, x: Row)
    requires x in Repaired(Replay(true, log))
    ensures CountsOf(log, x.scope, x.counters)
  {
    RepairedRow(Replay(true, log), x);
    SummedRowsCount(log, x.scope);
  }

  lemma SummedRowsCount(log: seq<Event>, k: Scope)
    requires k in Scopes(Replay(true, log))
    ensures CountsOf(log, k, Sum(Replay(true, log), k))
  {
    ReplayRefinesLog(true, log);
    SumsCount(Replay(true, log), log, k);
  }

  // ---------------------------------------------------------------- the name and the last run

  /** The i-th run is the scope's last in the log. */
  ghost predicate IsLast(log: seq<Event>, k: Scope, i: int) {
    && 0 <= i < |log| && RunOf(log[i], k)
    && forall j | i < j < |log| :: !RunOf(log[j], k)
  }

  /** A row shows the name and the time of the scope's run that was recorded last. */
  ghost predicate ShowsLast(log: seq<Event>, r: Row) {
    exists i :: IsLast(log, r.scope, i) && ShowsRun(r, log[i])
  }

  predicate ShowsRun(r: Row, e: Event) {
    r.lastRun == e.runAt && r.name == if e.name == "" then "Untitled workflow" else e.name
  }

  lemma {:induction false} RowsShowTheirLastRun(log: seq<Event>)
    ensures forall r | r in Replay(false, log) :: ShowsLast(log, r)
  {
    if log != [] {
      var n := |log| - 1;
      RowsShowTheirLastRun(log[..n]);
      forall r | r in Replay(false, log) ensures ShowsLast(log, r) {
        RowShowsItsLastRun(log, r);
      }
    }
  }

  lemma RowShowsItsLastRun(log: seq<Event>, r: Row)
    requires log != [] && r in Replay(false, log)
    requires r in Replay(false, log[..|log| - 1]) ==> ShowsLast(log[..|log| - 1], r)
    ensures ShowsLast(log, r)
  {
    var n := |log| - 1;
    ReplayRefinesLog(false, log);
    ScopesOnTheHour(log, r.scope);
    InScopeIff(log[n], r.scope);
    if RunOf(log[n], r.scope) {
      OnlyRowOfItsScope(Replay(false, log[..n]), log[n], r);
      assert IsLast(log, r.scope, n);
    } else {
      OtherRowsStay(Replay(false, log[..n]), log[n], r);
      StillLast(log, r);
    }
  }

  lemma StillLast(log: seq<Event>, r: Row)
    requires log != [] && !RunOf(log[|log| - 1], r.scope) && ShowsLast(log[..|log| - 1], r)
    ensures ShowsLast(log, r)
  {
    var before := log[..|log| - 1];
    var i :| IsLast(before, r.scope, i) && ShowsRun(r, before[i]);
    forall j | i < j < |log| ensures !RunOf(log[j], r.scope) {
      if j < |before| { assert log[j] == before[j]; }
    }
    assert log[i] == before[i] && IsLast(log, r.scope, i);
  }

  lemma OnlyRowOfItsScope(rows: seq<Row>, e: Event, r: Row)
    requires Recorded(e) && r in Upserted(rows, false, e) && r.scope == ScopeOf(e) && KeyHolds(Upserted(rows, false, e), false)
    ensures ShowsRun(r, e)
  {
    var after := Upserted(rows, false, e);
    var j :| 0 <= j < |after| && after[j] == r;
    match Conflict(rows, false, ScopeOf(e))
    case None => assert after[|rows|] == FreshRow(e);
    case Some(i) => assert after[i] == Bumped(rows[i], e);
  }

  lemma OtherRowsStay(rows: seq<Row>, e: Event, r: Row)
    requires r in Upserted(rows, false, e) && !InScope(e, r.scope)
    ensures r in rows
  {
  }
}
