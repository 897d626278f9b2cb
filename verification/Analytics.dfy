/** The hourly analytics table: the upsert of backend/app/api/analytics.py, the repair of
    migration 050 and the workflow delete of migration 052, tied to the log of runs they
    summarise.

    A uuid is a `nat` in the order of its text, an instant is a number of microseconds on
    the UTC line, and a latency is a real number.
 */
module Analytics {
  import opened Options

  type Latency = r: real | r >= 0.0
  type Instant = int

  const MICROS_PER_HOUR := 3_600_000_000

  datatype Scope = Scope(workflow: Option<nat>, owner: Option<nat>, bucket: Instant) {
    predicate HasNull() { workflow.None? || owner.None? }
  }

  datatype Counters = Counters(executions: nat, successes: nat, errors: nat,
                               samples: nat, totalLatency: Latency, maxLatency: Latency)

  datatype Row = Row(id: nat, scope: Scope, name: string, counters: Counters, lastRun: Instant)

  /** One call of the upsert. `id` is the uuid a fresh row would be given. */
  datatype Event = Event(id: nat, workflow: Option<nat>, owner: Option<nat>, name: string,
                         status: string, latencyMs: real, runAt: Instant, counted: bool)

  const ZERO := Counters(0, 0, 0, 0, 0.0, 0.0)

  function HourStart(t: Instant): Instant { t - t % MICROS_PER_HOUR }

  function Max(a: Latency, b: Latency): Latency { if a < b then b else a }

  function Add(a: Counters, b: Counters): Counters {
    Counters(a.executions + b.executions, a.successes + b.successes, a.errors + b.errors,
             a.samples + b.samples, a.totalLatency + b.totalLatency,
             Max(a.maxLatency, b.maxLatency))
  }

  predicate Recorded(e: Event) { e.workflow.Some? || e.owner.Some? }

  function ScopeOf(e: Event): Scope { Scope(e.workflow, e.owner, HourStart(e.runAt)) }

  /** What one event adds to the counters of its scope. */
  function Contribution(e: Event): Counters {
    var timed := e.counted && e.latencyMs > 0.0;
    Counters(if e.counted then 1 else 0,
             if e.status == "success" then 1 else 0,
             if e.status == "error" then 1 else 0,
             if timed then 1 else 0,
             if timed then e.latencyMs else 0.0,
             if timed then e.latencyMs else 0.0)
  }

  function DisplayName(name: string): string { if name == "" then "Untitled workflow" else name }

  // ---------------------------------------------------------------- the upsert statement

  /** The row an INSERT conflicts with. Under NULLS DISTINCT a key holding a NULL never conflicts. */
  function Conflict(rows: seq<Row>, nullsDistinct: bool, k: Scope): (at: Option<nat>)
    ensures at.Some? ==> at.value < |rows| && rows[at.value].scope == k
    ensures at.None? ==> (nullsDistinct && k.HasNull()) || forall r | r in rows :: r.scope != k
    ensures at.Some? && nullsDistinct ==> !k.HasNull()
  {
    if nullsDistinct && k.HasNull() then None
    else if rows == [] then None
    else if rows[0].scope == k then Some(0)
    else match Conflict(rows[1..], nullsDistinct, k)
      case None => None
      case Some(i) => Some(i + 1)
  }

  function FreshRow(e: Event): Row {
    Row(e.id, ScopeOf(e), DisplayName(e.name), Contribution(e), e.runAt)
  }

  function Bumped(r: Row, e: Event): Row {
    r.(name := DisplayName(e.name), counters := Add(r.counters, Contribution(e)), lastRun := e.runAt)
  }

  /** The table after one upsert. */
  function Upserted(rows: seq<Row>, nullsDistinct: bool, e: Event): seq<Row> {
    if !Recorded(e) then rows
    else match Conflict(rows, nullsDistinct, ScopeOf(e))
      case None => rows + [FreshRow(e)]
      case Some(i) => rows[i := Bumped(rows[i], e)]
  }

  /** The table after a log of upserts, starting from the empty table. */
  function Replay(nullsDistinct: bool, log: seq<Event>): seq<Row> {
    if log == [] then []
    else Upserted(Replay(nullsDistinct, log[..|log| - 1]), nullsDistinct, log[|log| - 1])
  }

  // ---------------------------------------------------------------- what a table and a log mean

  ghost function Sum(rows: seq<Row>, k: Scope): Counters {
    if rows == [] then ZERO
    else if rows[0].scope == k then Add(rows[0].counters, Sum(rows[1..], k))
    else Sum(rows[1..], k)
  }

  ghost function Scopes(rows: seq<Row>): set<Scope> { set r | r in rows :: r.scope }

  /** The counters a reader gets by summing per scope, NULLs equal. */
  ghost function View(rows: seq<Row>): map<Scope, Counters> { map k | k in Scopes(rows) :: Sum(rows, k) }

  ghost function LogSum(log: seq<Event>, k: Scope): Counters {
    if log == [] then ZERO
    else
      var e, before := log[|log| - 1], LogSum(log[..|log| - 1], k);
      if Recorded(e) && ScopeOf(e) == k then Add(before, Contribution(e)) else before
  }

  ghost function LogScopes(log: seq<Event>): set<Scope> { set e | e in log && Recorded(e) :: ScopeOf(e) }

  /** The reference: per scope, the sum over the events of that scope. */
  ghost function LogView(log: seq<Event>): map<Scope, Counters> {
    map k | k in LogScopes(log) :: LogSum(log, k)
  }

  ghost predicate DistinctIds(rows: seq<Row>) {
    forall i, j | 0 <= i < j < |rows| :: rows[i].id != rows[j].id
  }

  /** The unique key, under either reading of NULL. */
  ghost predicate KeyHolds(rows: seq<Row>, nullsDistinct: bool) {
    forall i, j | 0 <= i < j < |rows| ::
      rows[i].scope == rows[j].scope ==> nullsDistinct && rows[i].scope.HasNull()
  }

  // ---------------------------------------------------------------- sums

  lemma {:induction false} SumAppend(rows: seq<Row>, r: Row, k: Scope)
    ensures Sum(rows + [r], k) == if r.scope == k then Add(Sum(rows, k), r.counters) else Sum(rows, k)
  {
    if rows == [] {
      assert (rows + [r])[1..] == [];
    } else {
      assert (rows + [r])[1..] == rows[1..] + [r];
      SumAppend(rows[1..], r, k);
    }
  }

  lemma {:induction false} SumBumped(rows: seq<Row>, i: nat, e: Event, k: Scope)
    requires i < |rows| && rows[i].scope == ScopeOf(e)
    ensures Sum(rows[i := Bumped(rows[i], e)], k)
         == if ScopeOf(e) == k then Add(Sum(rows, k), Contribution(e)) else Sum(rows, k)
  {
    var after := rows[i := Bumped(rows[i], e)];
    if i == 0 {
      assert after[1..] == rows[1..];
    } else {
      assert after[1..] == rows[1..][i - 1 := Bumped(rows[i], e)];
      SumBumped(rows[1..], i - 1, e, k);
    }
  }

  /** Either key: an upsert adds exactly its contribution to exactly its scope. */
  lemma UpsertAddsContribution(rows: seq<Row>, nullsDistinct: bool, e: Event, k: Scope)
    ensures Sum(Upserted(rows, nullsDistinct, e), k)
         == if Recorded(e) && ScopeOf(e) == k then Add(Sum(rows, k), Contribution(e)) else Sum(rows, k)
    ensures Scopes(Upserted(rows, nullsDistinct, e))
         == if Recorded(e) then Scopes(rows) + {ScopeOf(e)} else Scopes(rows)
  {
    if Recorded(e) {
      var after := Upserted(rows, nullsDistinct, e);
      match Conflict(rows, nullsDistinct, ScopeOf(e)) {
        case None =>
          SumAppend(rows, FreshRow(e), k);
          assert after[|rows|] == FreshRow(e);
          assert forall r | r in rows :: r in after;
        case Some(i) =>
          SumBumped(rows, i, e, k);
          forall s | s in Scopes(rows) ensures s in Scopes(after) {
            var j :| 0 <= j < |rows| && rows[j].scope == s;
            assert after[j].scope == s;
          }
          assert after[i].scope == ScopeOf(e);
      }
    }
  }

  lemma {:induction false} SumOfAbsentScope(rows: seq<Row>, k: Scope)
    requires forall r | r in rows :: r.scope != k
    ensures Sum(rows, k) == ZERO
  {
    if rows != [] { SumOfAbsentScope(rows[1..], k); }
  }

  /** Under NULLS NOT DISTINCT a row's own counters are the whole sum of its scope. */
  lemma {:induction false} RowIsItsSum(rows: seq<Row>, i: nat)
    requires KeyHolds(rows, false) && i < |rows|
    ensures Sum(rows, rows[i].scope) == rows[i].counters
  {
    if i == 0 {
      SumOfAbsentScope(rows[1..], rows[0].scope);
    } else {
      RowIsItsSum(rows[1..], i - 1);
    }
  }

  // ---------------------------------------------------------------- the table refines the log

  lemma UpsertKeepsKey(rows: seq<Row>, nullsDistinct: bool, e: Event)
    requires KeyHolds(rows, nullsDistinct)
    ensures KeyHolds(Upserted(rows, nullsDistinct, e), nullsDistinct)
  {
  }

  lemma UpsertKeepsDistinctIds(rows: seq<Row>, nullsDistinct: bool, e: Event)
    requires DistinctIds(rows) && forall r | r in rows :: r.id != e.id
    ensures DistinctIds(Upserted(rows, nullsDistinct, e))
  {
  }

  lemma UpsertKeepsView(rows: seq<Row>, nullsDistinct: bool, log: seq<Event>, e: Event)
    requires View(rows) == LogView(log)
    ensures View(Upserted(rows, nullsDistinct, e)) == LogView(log + [e])
  {
    var after := Upserted(rows, nullsDistinct, e);
    ScopesOfView(rows, log);
    UpsertAddsContribution(rows, nullsDistinct, e, ScopeOf(e));
    LogScopesAppend(log, e);
    forall k | k in Scopes(after) ensures Sum(after, k) == LogSum(log + [e], k) {
      UpsertKeepsSum(rows, nullsDistinct, log, e, k);
    }
  }

  lemma LogScopesAppend(log: seq<Event>, e: Event)
    ensures LogScopes(log + [e]) == if Recorded(e) then LogScopes(log) + {ScopeOf(e)} else LogScopes(log)
  {
    forall x | x in log ensures x in log + [e] { }
    assert e in log + [e];
  }

  lemma UpsertKeepsSum(rows: seq<Row>, nullsDistinct: bool, log: seq<Event>, e: Event, k: Scope)
    requires View(rows) == LogView(log)
    ensures Sum(Upserted(rows, nullsDistinct, e), k) == LogSum(log + [e], k)
  {
    assert (log + [e])[..|log|] == log;
    ScopesOfView(rows, log);
    UpsertAddsContribution(rows, nullsDistinct, e, k);
    if k in Scopes(rows) {
      assert View(rows)[k] == LogView(log)[k];
    } else {
      SumOfAbsentScope(rows, k);
      LogSumOfAbsentScope(log, k);
    }
  }

  lemma ScopesOfView(rows: seq<Row>, log: seq<Event>)
    requires View(rows) == LogView(log)
    ensures Scopes(rows) == LogScopes(log)
  {
    assert View(rows).Keys == Scopes(rows);
    assert LogView(log).Keys == LogScopes(log);
  }

  lemma {:induction false} LogSumOfAbsentScope(log: seq<Event>, k: Scope)
    requires k !in LogScopes(log)
    ensures LogSum(log, k) == ZERO
  {
    if log != [] {
      assert forall e | e in log[..|log| - 1] :: e in log;
      LogSumOfAbsentScope(log[..|log| - 1], k);
    }
  }

  /** Under either key, for every log, the table's per-scope counters are the log's; under
      NULLS NOT DISTINCT every single row already is that sum. */
  lemma {:induction false} ReplayRefinesLog(nullsDistinct: bool, log: seq<Event>)
    ensures View(Replay(nullsDistinct, log)) == LogView(log)
    ensures KeyHolds(Replay(nullsDistinct, log), nullsDistinct)
    ensures forall r | r in Replay(false, log) && !nullsDistinct ::
              r.scope in LogScopes(log) && r.counters == LogSum(log, r.scope)
  {
    if log == [] {
      assert View([]) == LogView([]);
    } else {
      var n := |log| - 1;
      ReplayRefinesLog(nullsDistinct, log[..n]);
      assert log[..n] + [log[n]] == log;
      UpsertKeepsView(Replay(nullsDistinct, log[..n]), nullsDistinct, log[..n], log[n]);
      UpsertKeepsKey(Replay(nullsDistinct, log[..n]), nullsDistinct, log[n]);
    }
    if !nullsDistinct {
      var rows := Replay(false, log);
      forall r | r in rows ensures r.scope in LogScopes(log) && r.counters == LogSum(log, r.scope) {
        var i :| 0 <= i < |rows| && rows[i] == r;
        RowIsItsSum(rows, i);
        assert View(rows)[r.scope] == LogView(log)[r.scope];
      }
    }
  }
}
