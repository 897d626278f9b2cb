/** Migration 050 (merge the duplicates the old key let in, then tighten the key) and migration
    052 (what deleting a workflow does), as functions of the table's rows. */
module AnalyticsRepair {
  import opened Options
  import opened Analytics

  // ---------------------------------------------------------------- the two statements of 050

  /** MIN(id::text) of a group. */
  function KeepId(rows: seq<Row>, k: Scope): (id: Option<nat>)
    ensures id.None? <==> forall r | r in rows :: r.scope != k
    ensures id.Some? ==> exists r :: r in rows && r.scope == k && r.id == id.value
    ensures forall r | r in rows && r.scope == k :: id.Some? && id.value <= r.id
  {
    if rows == [] then None
    else
      var rest := KeepId(rows[1..], k);
      assert forall r | r in rows :: r == rows[0] || r in rows[1..];
      if rows[0].scope != k then rest
      else if rest.None? || rows[0].id < rest.value then Some(rows[0].id)
      else rest
  }

  /** MAX(last_run_at) of a group. */
  function LatestRun(rows: seq<Row>, k: Scope): (t: Option<Instant>)
    ensures t.None? <==> forall r | r in rows :: r.scope != k
  {
    if rows == [] then None
    else
      var rest := LatestRun(rows[1..], k);
      if rows[0].scope != k then rest
      else if rest.None? || rest.value < rows[0].lastRun then Some(rows[0].lastRun)
      else rest
  }

  function GroupSum(rows: seq<Row>, k: Scope): (c: Counters)
    ensures c == Sum(rows, k)
  {
    if rows == [] then ZERO
    else
      var rest := GroupSum(rows[1..], k);
      if rows[0].scope == k then Add(rows[0].counters, rest) else rest
  }

  /** The kept row of a group after the UPDATE. */
  function Grouped(all: seq<Row>, r: Row): Row
    requires r in all
  {
    r.(counters := GroupSum(all, r.scope), lastRun := LatestRun(all, r.scope).value)
  }

  /** UPDATE ... FROM grouped WHERE w.id = g.keep_id, with the groups of `all`. */
  function MergeInto(all: seq<Row>, part: seq<Row>): (out: seq<Row>)
    requires forall r | r in part :: r in all
    ensures |out| == |part|
    ensures forall i | 0 <= i < |part| :: out[i].id == part[i].id && out[i].scope == part[i].scope
  {
    if part == [] then []
    else
      var r := part[0];
      var rest := MergeInto(all, part[1..]);
      if KeepId(all, r.scope) == Some(r.id) then
        [Grouped(all, r)] + rest
      else [r] + rest
  }

  /** DELETE ... WHERE id NOT IN (the kept ids of `all`). */
  function DropExtras(all: seq<Row>, part: seq<Row>): (out: seq<Row>)
    ensures forall r | r in out :: r in part && KeepId(all, r.scope) == Some(r.id)
  {
    if part == [] then []
    else if KeepId(all, part[0].scope) == Some(part[0].id) then [part[0]] + DropExtras(all, part[1..])
    else DropExtras(all, part[1..])
  }

  function Repaired(rows: seq<Row>): seq<Row> {
    var merged := MergeInto(rows, rows);
    DropExtras(merged, merged)
  }

  // ---------------------------------------------------------------- what the repair keeps

  /** The kept id depends on ids and scopes only, which the UPDATE leaves alone. */
  lemma {:induction false} KeepIdSame(a: seq<Row>, b: seq<Row>, k: Scope)
    requires |a| == |b|
    requires forall i | 0 <= i < |a| :: a[i].id == b[i].id && a[i].scope == b[i].scope
    ensures KeepId(a, k) == KeepId(b, k)
  {
    if a != [] { KeepIdSame(a[1..], b[1..], k); }
  }

  /** What the two statements leave of `part`: the kept row of each group, carrying the group. */
  ghost function Canonical(all: seq<Row>, part: seq<Row>): seq<Row>
    requires forall r | r in part :: r in all
  {
    if part == [] then []
    else if KeepId(all, part[0].scope) == Some(part[0].id) then
      [Grouped(all, part[0])] + Canonical(all, part[1..])
    else Canonical(all, part[1..])
  }

  lemma {:induction false} StatementsGiveCanonical(all: seq<Row>, part: seq<Row>)
    requires forall r | r in part :: r in all
    ensures DropExtras(MergeInto(all, all), MergeInto(all, part)) == Canonical(all, part)
  {
    if part != [] {
      KeepIdSame(all, MergeInto(all, all), part[0].scope);
      StatementsGiveCanonical(all, part[1..]);
      assert MergeInto(all, part)[1..] == MergeInto(all, part[1..]);
    }
  }

  ghost predicate MadeFrom(all: seq<Row>, r: Row, x: Row) {
    r in all && KeepId(all, r.scope) == Some(r.id) && x == Grouped(all, r)
  }

  lemma {:induction false} CanonicalSource(all: seq<Row>, part: seq<Row>, x: Row) returns (r: Row)
    requires forall r | r in part :: r in all
    requires x in Canonical(all, part)
    ensures r in part && MadeFrom(all, r, x)
  {
    r := part[0];
    if !MadeFrom(all, r, x) { r := CanonicalSource(all, part[1..], x); }
  }

  lemma {:induction false} SourceIsCanonical(all: seq<Row>, part: seq<Row>, r: Row, x: Row)
    requires forall r | r in part :: r in all
    requires r in part && MadeFrom(all, r, x)
    ensures x in Canonical(all, part)
  {
    if r != part[0] { SourceIsCanonical(all, part[1..], r, x); }
  }

  lemma CanonicalRows(all: seq<Row>, part: seq<Row>, x: Row)
    requires forall r | r in part :: r in all
    ensures x in Canonical(all, part) <==> exists r :: r in part && MadeFrom(all, r, x)
  {
    if x in Canonical(all, part) { var r := CanonicalSource(all, part, x); }
    if r :| r in part && MadeFrom(all, r, x) { SourceIsCanonical(all, part, r, x); }
  }

  lemma {:induction false} CanonicalIsKeyed(all: seq<Row>, part: seq<Row>)
    requires forall r | r in part :: r in all
    requires DistinctIds(part)
    ensures KeyHolds(Canonical(all, part), false)
  {
    if part != [] {
      CanonicalIsKeyed(all, part[1..]);
      var rest := Canonical(all, part[1..]);
      forall x | x in rest ensures KeepId(all, part[0].scope) == Some(part[0].id) ==> x.scope != part[0].scope {
        CanonicalRows(all, part[1..], x);
      }
    }
  }

  lemma RepairedRow(rows: seq<Row>, x: Row)
    requires x in Repaired(rows)
    ensures x.counters == Sum(rows, x.scope) && LatestRun(rows, x.scope) == Some(x.lastRun)
    ensures exists r :: r in rows && r.scope == x.scope
  {
    StatementsGiveCanonical(rows, rows);
    CanonicalRows(rows, rows, x);
  }

  lemma {:induction false} LatestRunIs(rows: seq<Row>, k: Scope)
    ensures forall r | r in rows && r.scope == k :: LatestRun(rows, k).Some? && r.lastRun <= LatestRun(rows, k).value
    ensures LatestRun(rows, k).Some? ==> exists r :: r in rows && r.scope == k && r.lastRun == LatestRun(rows, k).value
  {
    if rows != [] {
      LatestRunIs(rows[1..], k);
      assert forall r | r in rows :: r == rows[0] || r in rows[1..];
    }
  }

  /** A repaired row is the group's row of least id, under its own name, with the group's latest run. */
  lemma RepairedRowIsKept(rows: seq<Row>, x: Row) returns (r: Row)
    requires x in Repaired(rows)
    ensures r in rows && r.id == x.id && r.scope == x.scope && r.name == x.name
    ensures forall q | q in rows && q.scope == x.scope :: x.id <= q.id && q.lastRun <= x.lastRun
    ensures exists q :: q in rows && q.scope == x.scope && q.lastRun == x.lastRun
  {
    StatementsGiveCanonical(rows, rows);
    r := CanonicalSource(rows, rows, x);
    LatestRunIs(rows, r.scope);
  }

  lemma RepairedKeepsScope(rows: seq<Row>, k: Scope) returns (x: Row)
    requires k in Scopes(rows)
    ensures x in Repaired(rows) && x.scope == k
  {
    var r :| r in rows && r.scope == k && KeepId(rows, k) == Some(r.id);
    x := Grouped(rows, r);
    StatementsGiveCanonical(rows, rows);
    CanonicalRows(rows, rows, x);
  }

  lemma RepairedIsKeyed(rows: seq<Row>)
    requires DistinctIds(rows)
    ensures KeyHolds(Repaired(rows), false)
  {
    StatementsGiveCanonical(rows, rows);
    CanonicalIsKeyed(rows, rows);
  }

  lemma RowSum(rows: seq<Row>, x: Row)
    requires KeyHolds(rows, false) && x in rows
    ensures Sum(rows, x.scope) == x.counters
  {
    var i :| 0 <= i < |rows| && rows[i] == x;
    RowIsItsSum(rows, i);
  }

  /** The repair changes no counter of any scope, drops no scope, and leaves one row a scope. */
  lemma RepairKeepsView(rows: seq<Row>)
    requires DistinctIds(rows)
    ensures View(Repaired(rows)) == View(rows)
    ensures KeyHolds(Repaired(rows), false)
  {
    RepairedIsKeyed(rows);
    forall k | k in Scopes(rows)
      ensures k in Scopes(Repaired(rows)) && Sum(Repaired(rows), k) == Sum(rows, k)
    {
      var x := RepairedKeepsScope(rows, k);
      RowSum(Repaired(rows), x);
      RepairedRow(rows, x);
    }
    forall k | k in Scopes(Repaired(rows)) ensures k in Scopes(rows) {
      var x :| x in Repaired(rows) && x.scope == k;
      RepairedRow(rows, x);
    }
    SameScopesSameView(Repaired(rows), rows);
  }

  lemma SameScopesSameView(a: seq<Row>, b: seq<Row>)
    requires forall k :: k in Scopes(a) <==> k in Scopes(b)
    requires forall k | k in Scopes(a) :: Sum(a, k) == Sum(b, k)
    ensures View(a) == View(b)
  {
    assert Scopes(a) == Scopes(b);
  }

  ghost predicate FreshIds(log: seq<Event>) {
    forall i, j | 0 <= i < j < |log| :: log[i].id != log[j].id
  }

  lemma {:induction false} ReplayIds(nullsDistinct: bool, log: seq<Event>)
    requires FreshIds(log)
    ensures DistinctIds(Replay(nullsDistinct, log))
    ensures forall r | r in Replay(nullsDistinct, log) :: exists e :: e in log && e.id == r.id
  {
    if log != [] {
      var n := |log| - 1;
      ReplayIds(nullsDistinct, log[..n]);
      var before := Replay(nullsDistinct, log[..n]);
      UpsertKeepsDistinctIds(before, nullsDistinct, log[n]);
      forall r | r in Replay(nullsDistinct, log) ensures exists e :: e in log && e.id == r.id {
        if Recorded(log[n]) && r.id == log[n].id && Conflict(before, nullsDistinct, ScopeOf(log[n])).None? {
          assert log[n] in log;
        } else {
          var b :| b in before && b.id == r.id;
          var e :| e in log[..n] && e.id == b.id;
        }
      }
    }
  }

  /** Two tables with the same rows, up to row id, display name and last run. */
  ghost predicate SameRows(a: seq<Row>, b: seq<Row>) {
    && KeyHolds(a, false) && KeyHolds(b, false)
    && (forall r | r in a :: exists s :: s in b && s.scope == r.scope && s.counters == r.counters)
    && (forall s | s in b :: exists r :: r in a && r.scope == s.scope && r.counters == s.counters)
  }

  lemma SameViewSameRows(a: seq<Row>, b: seq<Row>)
    requires KeyHolds(a, false) && KeyHolds(b, false) && View(a) == View(b)
    ensures SameRows(a, b)
  {
    RowsOfView(a, b);
    RowsOfView(b, a);
  }

  lemma RowsOfView(a: seq<Row>, b: seq<Row>)
    requires KeyHolds(a, false) && KeyHolds(b, false) && View(a) == View(b)
    ensures forall r | r in a :: exists s :: s in b && s.scope == r.scope && s.counters == r.counters
  {
    forall r | r in a ensures exists s :: s in b && s.scope == r.scope && s.counters == r.counters {
      var i :| 0 <= i < |a| && a[i] == r;
      RowIsItsSum(a, i);
      assert r.scope in View(a).Keys;
      assert r.scope in Scopes(b);
      var j :| 0 <= j < |b| && b[j].scope == r.scope;
      RowIsItsSum(b, j);
      assert View(a)[r.scope] == View(b)[r.scope];
    }
  }

  /** The point of 050: for every log, repairing the table the old key built gives the rows
      the fixed key would have built from the start. */
  lemma RepairEqualsFixedFromStart(log: seq<Event>)
    requires FreshIds(log)
    ensures SameRows(Repaired(Replay(true, log)), Replay(false, log))
  {
    ReplayIds(true, log);
    ReplayRefinesLog(true, log);
    ReplayRefinesLog(false, log);
    RepairKeepsView(Replay(true, log));
    SameViewSameRows(Repaired(Replay(true, log)), Replay(false, log));
  }

  /** Repair then upsert under the new key, or upsert under the old key then repair: same rows. */
  lemma RepairCommutesWithUpsert(rows: seq<Row>, e: Event)
    requires DistinctIds(rows) && forall r | r in rows :: r.id != e.id
    ensures SameRows(Upserted(Repaired(rows), false, e), Repaired(Upserted(rows, true, e)))
  {
    RepairKeepsView(rows);
    UpsertKeepsKey(Repaired(rows), false, e);
    UpsertKeepsDistinctIds(rows, true, e);
    RepairKeepsView(Upserted(rows, true, e));
    UpsertOfSameView(Repaired(rows), false, rows, true, e);
    SameViewSameRows(Upserted(Repaired(rows), false, e), Repaired(Upserted(rows, true, e)));
  }

  lemma UpsertOfSameView(a: seq<Row>, m: bool, b: seq<Row>, n: bool, e: Event)
    requires View(a) == View(b)
    ensures View(Upserted(a, m, e)) == View(Upserted(b, n, e))
  {
    ScopesSame(a, b);
    forall k
      ensures k in Scopes(Upserted(a, m, e)) <==> k in Scopes(Upserted(b, n, e))
      ensures Sum(Upserted(a, m, e), k) == Sum(Upserted(b, n, e), k)
    {
      UpsertAddsContribution(a, m, e, k);
      UpsertAddsContribution(b, n, e, k);
      SameViewSameSum(a, b, k);
    }
    SameScopesSameView(Upserted(a, m, e), Upserted(b, n, e));
  }

  lemma SameViewSameSum(a: seq<Row>, b: seq<Row>, k: Scope)
    requires View(a) == View(b)
    ensures Sum(a, k) == Sum(b, k)
  {
    ScopesSame(a, b);
    if k in Scopes(a) {
      assert View(a)[k] == View(b)[k];
    } else {
      SumOfAbsentScope(a, k);
      SumOfAbsentScope(b, k);
    }
  }

  lemma ScopesSame(a: seq<Row>, b: seq<Row>)
    requires View(a) == View(b)
    ensures Scopes(a) == Scopes(b)
  {
    assert View(a).Keys == Scopes(a);
    assert View(b).Keys == Scopes(b);
  }

  // ---------------------------------------------------------------- last_run_at

  ghost predicate InScope(e: Event, k: Scope) { Recorded(e) && ScopeOf(e) == k }

  /** The run time of the scope's last event in the log. */
  ghost function LastRunAt(log: seq<Event>, k: Scope): Option<Instant> {
    if log == [] then None
    else if InScope(log[|log| - 1], k) then Some(log[|log| - 1].runAt)
    else LastRunAt(log[..|log| - 1], k)
  }

  /** The latest run time of the scope's events. */
  ghost function MaxRunAt(log: seq<Event>, k: Scope): (t: Option<Instant>)
    ensures t.None? <==> forall e | e in log :: !InScope(e, k)
    ensures t.Some? ==> exists e :: e in log && InScope(e, k) && e.runAt == t.value
    ensures forall e | e in log && InScope(e, k) :: t.Some? && e.runAt <= t.value
  {
    if log == [] then None
    else
      var e, before := log[|log| - 1], MaxRunAt(log[..|log| - 1], k);
      assert forall x | x in log :: x == e || x in log[..|log| - 1];
      if !InScope(e, k) then before
      else if before.None? || before.value < e.runAt then Some(e.runAt)
      else before
  }

  lemma {:induction false} LatestRunAppend(rows: seq<Row>, r: Row, k: Scope)
    ensures LatestRun(rows + [r], k) ==
      if r.scope != k then LatestRun(rows, k)
      else if LatestRun(rows, k).None? || LatestRun(rows, k).value < r.lastRun then Some(r.lastRun)
      else LatestRun(rows, k)
  {
    if rows != [] {
      assert (rows + [r])[1..] == rows[1..] + [r];
      LatestRunAppend(rows[1..], r, k);
    }
  }

  lemma {:induction false} LatestRunOfOnlyRow(rows: seq<Row>, i: nat)
    requires i < |rows| && forall j | 0 <= j < |rows| && j != i :: rows[j].scope != rows[i].scope
    ensures LatestRun(rows, rows[i].scope) == Some(rows[i].lastRun)
  {
    if i > 0 { LatestRunOfOnlyRow(rows[1..], i - 1); }
  }

  lemma {:induction false} LatestRunElsewhere(rows: seq<Row>, i: nat, r: Row, k: Scope)
    requires i < |rows| && rows[i].scope == r.scope != k
    ensures LatestRun(rows[i := r], k) == LatestRun(rows, k)
  {
    if i == 0 {
      assert rows[i := r][1..] == rows[1..];
    } else {
      assert rows[i := r][1..] == rows[1..][i - 1 := r];
      LatestRunElsewhere(rows[1..], i - 1, r, k);
    }
  }

  lemma UpsertLatestRun(rows: seq<Row>, nullsDistinct: bool, e: Event, k: Scope)
    requires KeyHolds(rows, nullsDistinct) && Recorded(e)
    ensures LatestRun(Upserted(rows, nullsDistinct, e), k) ==
      if ScopeOf(e) != k then LatestRun(rows, k)
      else if nullsDistinct && k.HasNull() && LatestRun(rows, k).Some? && e.runAt <= LatestRun(rows, k).value
      then LatestRun(rows, k)
      else Some(e.runAt)
  {
    match Conflict(rows, nullsDistinct, ScopeOf(e)) {
      case None =>
        LatestRunAppend(rows, FreshRow(e), k);
      case Some(i) =>
        if ScopeOf(e) == k {
          LatestRunOfOnlyRow(rows[i := Bumped(rows[i], e)], i);
        } else {
          LatestRunElsewhere(rows, i, Bumped(rows[i], e), k);
        }
    }
  }

  lemma {:induction false} ReplayLatestRun(nullsDistinct: bool, log: seq<Event>, k: Scope)
    ensures LatestRun(Replay(nullsDistinct, log), k) ==
      if nullsDistinct && k.HasNull() then MaxRunAt(log, k) else LastRunAt(log, k)
  {
    if log != [] {
      var n := |log| - 1;
      ReplayLatestRun(nullsDistinct, log[..n], k);
      ReplayRefinesLog(nullsDistinct, log[..n]);
      if Recorded(log[n]) {
        UpsertLatestRun(Replay(nullsDistinct, log[..n]), nullsDistinct, log[n], k);
      }
    }
  }

  lemma RepairedLastRun(log: seq<Event>, x: Row)
    requires x in Repaired(Replay(true, log))
    ensures Some(x.lastRun) == if x.scope.HasNull() then MaxRunAt(log, x.scope) else LastRunAt(log, x.scope)
  {
    RepairedRow(Replay(true, log), x);
    ReplayLatestRun(true, log, x.scope);
  }

  /** The repair takes the latest run where the upsert takes the last one written: a repaired
      row agrees on last_run_at exactly when its key holds no NULL or its last event is its latest. */
  lemma RepairedLastRunAgreesIff(log: seq<Event>, x: Row, y: Row)
    requires FreshIds(log)
    requires x in Repaired(Replay(true, log)) && y in Replay(false, log) && x.scope == y.scope
    ensures LastRunAt(log, x.scope) == Some(y.lastRun)
    ensures x.lastRun == y.lastRun <==>
              (x.scope.workflow.Some? && x.scope.owner.Some?) || forall e | e in log && InScope(e, x.scope) :: e.runAt <= LastRunAt(log, x.scope).value
  {
    RepairedLastRun(log, x);
    FixedLastRun(log, y);
    MaxIsLastIff(log, x.scope);
  }

  /** It does not agree, for example, after two runs of such a scope recorded out of order. */
  lemma LastRunDiffers(late: Event, early: Event) returns (log: seq<Event>, x: Row, y: Row)
    requires Recorded(late) && Recorded(early) && ScopeOf(late) == ScopeOf(early) && ScopeOf(late).HasNull()
    requires late.id != early.id && early.runAt < late.runAt
    ensures log == [late, early] && FreshIds(log)
    ensures x in Repaired(Replay(true, log)) && y in Replay(false, log) && x.scope == y.scope == ScopeOf(late)
    ensures x.lastRun != y.lastRun
  {
    log := [late, early];
    var k := ScopeOf(late);
    OutOfOrder(late, early);
    x := RepairedRowOf(log, k);
    y := FixedRowOf(log, k);
    RepairedLastRunAgreesIff(log, x, y);
  }

  lemma OutOfOrder(late: Event, early: Event)
    requires Recorded(late) && Recorded(early) && ScopeOf(late) == ScopeOf(early)
    requires late.id != early.id && early.runAt < late.runAt
    ensures var log, k := [late, early], ScopeOf(late);
            && FreshIds(log) && k in LogScopes(log) && LastRunAt(log, k) == Some(early.runAt)
            && late in log && InScope(late, k)
  {
    var log := [late, early];
    assert log[1] == early && log[0] == late;
    assert late in log && ScopeOf(late) in LogScopes(log);
  }

  lemma RepairedRowOf(log: seq<Event>, k: Scope) returns (x: Row)
    requires k in LogScopes(log)
    ensures x in Repaired(Replay(true, log)) && x.scope == k
  {
    ReplayRefinesLog(true, log);
    ScopesOfView(Replay(true, log), log);
    x := RepairedKeepsScope(Replay(true, log), k);
  }

  lemma FixedRowOf(log: seq<Event>, k: Scope) returns (y: Row)
    requires k in LogScopes(log)
    ensures y in Replay(false, log) && y.scope == k
  {
    ReplayRefinesLog(false, log);
    ScopesOfView(Replay(false, log), log);
    y :| y in Replay(false, log) && y.scope == k;
  }

  lemma FixedLastRun(log: seq<Event>, y: Row)
    requires y in Replay(false, log)
    ensures LastRunAt(log, y.scope) == Some(y.lastRun)
  {
    var rows := Replay(false, log);
    ReplayLatestRun(false, log, y.scope);
    ReplayRefinesLog(false, log);
    var i :| 0 <= i < |rows| && rows[i] == y;
    LatestRunOfOnlyRow(rows, i);
  }

  lemma MaxIsLastIff(log: seq<Event>, k: Scope)
    requires LastRunAt(log, k).Some?
    ensures MaxRunAt(log, k) == LastRunAt(log, k) <==>
              forall e | e in log && InScope(e, k) :: e.runAt <= LastRunAt(log, k).value
  {
    LastIsInScope(log, k);
  }

  lemma {:induction false} LastIsInScope(log: seq<Event>, k: Scope)
    ensures LastRunAt(log, k).Some? ==> exists e :: e in log && InScope(e, k) && e.runAt == LastRunAt(log, k).value
  {
    if log != [] && !InScope(log[|log| - 1], k) { LastIsInScope(log[..|log| - 1], k); }
  }

  // ---------------------------------------------------------------- order of the log

  lemma {:induction false} LogSumWithout(log: seq<Event>, i: nat, k: Scope)
    requires i < |log|
    ensures LogSum(log, k) ==
      var rest := LogSum(log[..i] + log[i + 1..], k);
      if InScope(log[i], k) then Add(rest, Contribution(log[i])) else rest
  {
    var n := |log| - 1;
    if i == n {
      assert log[..i] + log[i + 1..] == log[..n];
    } else {
      LogSumWithout(log[..n], i, k);
      LogSumWithoutEarlier(log, i, k);
    }
  }

  /** Taking out an event before the last one. */
  lemma LogSumWithoutEarlier(log: seq<Event>, i: nat, k: Scope)
    requires i < |log| - 1
    requires var before := log[..|log| - 1];
             var rest := LogSum(before[..i] + before[i + 1..], k);
             LogSum(before, k) == if InScope(before[i], k) then Add(rest, Contribution(before[i])) else rest
    ensures LogSum(log, k) ==
      var rest := LogSum(log[..i] + log[i + 1..], k);
      if InScope(log[i], k) then Add(rest, Contribution(log[i])) else rest
  {
    var n := |log| - 1;
    LastWithout(log, i);
    var rest := log[..n][..i] + log[..n][i + 1..];
    LastOut(log[..i] + log[i + 1..], rest, log[n], k);
    AddSwap(LogSum(rest, k), Contribution(log[i]), Contribution(log[n]));
  }

  lemma LastOut(log: seq<Event>, rest: seq<Event>, e: Event, k: Scope)
    requires log != [] && log[..|log| - 1] == rest && log[|log| - 1] == e
    ensures LogSum(log, k) == if InScope(e, k) then Add(LogSum(rest, k), Contribution(e)) else LogSum(rest, k)
  {
  }

  lemma LastWithout(log: seq<Event>, i: nat)
    requires i < |log| - 1
    ensures var n, rest := |log| - 1, log[..i] + log[i + 1..];
            rest[..n - 1] == log[..n][..i] + log[..n][i + 1..] && rest[n - 1] == log[n] && log[..n][i] == log[i]
  {
  }

  lemma AddSwap(a: Counters, b: Counters, c: Counters)
    ensures Add(Add(a, b), c) == Add(Add(a, c), b)
  {
  }

  lemma SplitOut(a: seq<Event>, i: nat)
    requires i < |a|
    ensures multiset(a) == multiset(a[..i] + a[i + 1..]) + multiset{a[i]}
  {
    assert a == a[..i] + [a[i]] + a[i + 1..];
  }

  lemma SameRemainder(m: multiset<Event>, n: multiset<Event>, e: Event)
    requires m + multiset{e} == n + multiset{e}
    ensures m == n
  {
    assert m + multiset{e} - multiset{e} == m;
    assert n + multiset{e} - multiset{e} == n;
  }

  /** The last event of one log is somewhere in the other, and what is left is the same. */
  lemma FindLast(a: seq<Event>, b: seq<Event>) returns (i: nat)
    requires a != [] && multiset(a) == multiset(b)
    ensures i < |b| && b[i] == a[|a| - 1]
    ensures multiset(a[..|a| - 1]) == multiset(b[..i] + b[i + 1..])
  {
    var n := |a| - 1;
    assert a[n] in multiset(b);
    i :| 0 <= i < |b| && b[i] == a[n];
    assert a[..n] + a[n + 1..] == a[..n];
    SplitOut(a, n);
    SplitOut(b, i);
    SameRemainder(multiset(a[..n]), multiset(b[..i] + b[i + 1..]), a[n]);
  }

  lemma {:induction false} LogSumOfPermutation(a: seq<Event>, b: seq<Event>, k: Scope)
    requires multiset(a) == multiset(b)
    ensures LogSum(a, k) == LogSum(b, k)
    decreases |a|
  {
    if a == [] {
      assert |multiset(b)| == 0;
    } else {
      var i := FindLast(a, b);
      LogSumOfPermutation(a[..|a| - 1], b[..i] + b[i + 1..], k);
      LogSumWithout(b, i, k);
    }
  }

  /** The order in which runs were recorded does not show in the counters. */
  lemma ReplayIgnoresOrder(a: seq<Event>, b: seq<Event>)
    requires multiset(a) == multiset(b)
    ensures SameRows(Replay(false, a), Replay(false, b))
  {
    assert forall e :: e in a <==> e in multiset(a);
    assert forall e :: e in b <==> e in multiset(b);
    assert LogScopes(a) == LogScopes(b);
    forall k | k in LogScopes(a) ensures LogSum(a, k) == LogSum(b, k) {
      LogSumOfPermutation(a, b, k);
    }
    assert LogView(a) == LogView(b);
    ReplayRefinesLog(false, a);
    ReplayRefinesLog(false, b);
    SameViewSameRows(Replay(false, a), Replay(false, b));
  }

  // ---------------------------------------------------------------- what every row keeps

  ghost predicate Sane(c: Counters) {
    && c.samples <= c.executions
    && c.maxLatency <= c.totalLatency <= c.samples as real * c.maxLatency
  }

  lemma LatencyBound(n: nat, most: real, m: real)
    requires most <= m
    ensures n as real * most <= n as real * m
  {
  }

  lemma LatencySum(n: nat, k: nat, m: real)
    ensures (n + k) as real * m == n as real * m + k as real * m
  {
  }

  lemma LatencyAdd(n: nat, total: Latency, most: Latency, n': nat, total': Latency, most': Latency)
    requires total <= n as real * most && total' <= n' as real * most'
    ensures total + total' <= (n + n') as real * Max(most, most')
  {
    var m := Max(most, most');
    LatencyBound(n, most, m);
    LatencyBound(n', most', m);
    LatencySum(n, n', m);
  }

  lemma SaneAdd(a: Counters, b: Counters)
    requires Sane(a) && Sane(b)
    ensures Sane(Add(a, b))
  {
    LatencyAdd(a.samples, a.totalLatency, a.maxLatency, b.samples, b.totalLatency, b.maxLatency);
  }

  lemma {:induction false} SaneSum(rows: seq<Row>, k: Scope)
    requires forall r | r in rows :: Sane(r.counters)
    ensures Sane(Sum(rows, k))
  {
    if rows != [] {
      SaneSum(rows[1..], k);
      if rows[0].scope == k { SaneAdd(rows[0].counters, Sum(rows[1..], k)); }
    }
  }

  /** Upserts under either key keep every row's counters consistent, and so does the repair,
      however many duplicates it merges. */
  lemma UpsertKeepsSane(rows: seq<Row>, nullsDistinct: bool, e: Event)
    requires forall r | r in rows :: Sane(r.counters)
    ensures forall r | r in Upserted(rows, nullsDistinct, e) :: Sane(r.counters)
  {
    if Recorded(e) && Conflict(rows, nullsDistinct, ScopeOf(e)).Some? {
      SaneAdd(rows[Conflict(rows, nullsDistinct, ScopeOf(e)).value].counters, Contribution(e));
    }
  }

  lemma RepairKeepsSane(rows: seq<Row>)
    requires forall r | r in rows :: Sane(r.counters)
    ensures forall x | x in Repaired(rows) :: Sane(x.counters)
  {
    forall x | x in Repaired(rows) ensures Sane(x.counters) {
      RepairedRow(rows, x);
      SaneSum(rows, x.scope);
    }
  }

  // ---------------------------------------------------------------- deleting a workflow

  /** ON DELETE CASCADE: the workflow's rows go with it. */
  function Cascaded(rows: seq<Row>, w: nat): seq<Row> {
    if rows == [] then []
    else if rows[0].scope.workflow == Some(w) then Cascaded(rows[1..], w)
    else [rows[0]] + Cascaded(rows[1..], w)
  }

  /** The two foreign keys of a row: its workflow and its owner. */
  datatype Reference = ToWorkflow | ToOwner

  function Referred(k: Scope, c: Reference): Option<nat> { if c.ToWorkflow? then k.workflow else k.owner }

  function Cleared(k: Scope, c: Reference): Scope { if c.ToWorkflow? then k.(workflow := None) else k.(owner := None) }

  function NulledScope(k: Scope, c: Reference, x: nat): Scope { if Referred(k, c) == Some(x) then Cleared(k, c) else k }

  /** ON DELETE SET NULL: the rows that refer to what is deleted stay, without the reference. */
  function Nulled(rows: seq<Row>, c: Reference, x: nat): (out: seq<Row>)
    ensures |out| == |rows|
    ensures forall i | 0 <= i < |rows| :: out[i] == rows[i].(scope := NulledScope(rows[i].scope, c, x))
  {
    if rows == [] then []
    else [rows[0].(scope := NulledScope(rows[0].scope, c, x))] + Nulled(rows[1..], c, x)
  }

  /** With SET NULL a delete breaks the unique key exactly when a row without the reference
      already stands where a row of the deleted one is. It is why 052 changed the workflow's
      foreign key; the owner's still has it. */
  lemma SetNullCollidesIff(rows: seq<Row>, c: Reference, x: nat)
    requires KeyHolds(rows, false)
    ensures !KeyHolds(Nulled(rows, c, x), false) <==> exists i, j :: Meets(rows, c, x, i, j)
  {
    var out := Nulled(rows, c, x);
    if !KeyHolds(out, false) {
      var i, j :| 0 <= i < j < |out| && out[i].scope == out[j].scope;
      CollidingPair(rows[i].scope, rows[j].scope, c, x);
      assert Meets(rows, c, x, i, j) || Meets(rows, c, x, j, i);
    }
    if i, j :| Meets(rows, c, x, i, j) {
      CollidingPair(rows[i].scope, rows[j].scope, c, x);
      assert out[i].scope == out[j].scope;
    }
  }

  /** Such a table: one row with the reference and one without it, under a key that holds. */
  lemma SetNullCollides(c: Reference, x: nat, k: Scope) returns (rows: seq<Row>)
    requires Referred(k, c) == Some(x)
    ensures KeyHolds(rows, false) && DistinctIds(rows) && !KeyHolds(Nulled(rows, c, x), false)
  {
    rows := [Row(0, k, "", ZERO, 0), Row(1, Cleared(k, c), "", ZERO, 0)];
    assert Meets(rows, c, x, 0, 1);
    SetNullCollidesIff(rows, c, x);
  }

  lemma CollidingPair(k: Scope, l: Scope, c: Reference, x: nat)
    requires k != l
    ensures NulledScope(k, c, x) == NulledScope(l, c, x) <==>
              || (Referred(k, c) == Some(x) && l == Cleared(k, c))
              || (Referred(l, c) == Some(x) && k == Cleared(l, c))
  {
  }

  /** Row `i` refers to what is deleted, row `j` is in the same scope but for the reference it lacks. */
  ghost predicate Meets(rows: seq<Row>, c: Reference, x: nat, i: int, j: int) {
    && 0 <= i < |rows| && 0 <= j < |rows|
    && var k, l := rows[i].scope, rows[j].scope;
       && k.bucket == l.bucket
       && (if c.ToWorkflow? then k.workflow == Some(x) && l.workflow == None && k.owner == l.owner
           else k.owner == Some(x) && l.owner == None && k.workflow == l.workflow)
  }

  ghost function LogWithout(log: seq<Event>, w: nat): seq<Event> {
    if log == [] then []
    else
      var n := |log| - 1;
      if log[n].workflow == Some(w) then LogWithout(log[..n], w) else LogWithout(log[..n], w) + [log[n]]
  }

  lemma {:induction false} CascadedSum(rows: seq<Row>, w: nat, k: Scope)
    ensures k in Scopes(Cascaded(rows, w)) <==> k in Scopes(rows) && k.workflow != Some(w)
    ensures k.workflow != Some(w) ==> Sum(Cascaded(rows, w), k) == Sum(rows, k)
  {
    if rows != [] {
      CascadedSum(rows[1..], w, k);
      assert forall r :: r in rows <==> r == rows[0] || r in rows[1..];
      if rows[0].scope.workflow != Some(w) {
        assert Cascaded(rows, w)[1..] == Cascaded(rows[1..], w);
        assert forall r :: r in Cascaded(rows, w) <==> r == rows[0] || r in Cascaded(rows[1..], w);
      }
    }
  }

  lemma {:induction false} LogWithoutSum(log: seq<Event>, w: nat, k: Scope)
    ensures k in LogScopes(LogWithout(log, w)) <==> k in LogScopes(log) && k.workflow != Some(w)
    ensures k.workflow != Some(w) ==> LogSum(LogWithout(log, w), k) == LogSum(log, k)
  {
    if log != [] {
      var n := |log| - 1;
      LogWithoutSum(log[..n], w, k);
      assert forall e :: e in log <==> e == log[n] || e in log[..n];
      if log[n].workflow != Some(w) {
        var out := LogWithout(log, w);
        assert out[..|out| - 1] == LogWithout(log[..n], w);
        assert forall e :: e in out <==> e == log[n] || e in LogWithout(log[..n], w);
      }
    }
  }

  /** After 052 a delete leaves exactly the table of the log without that workflow's runs. */
  lemma CascadeForgetsWorkflow(rows: seq<Row>, log: seq<Event>, w: nat)
    requires View(rows) == LogView(log)
    ensures View(Cascaded(rows, w)) == LogView(LogWithout(log, w))
  {
    ScopesOfView(rows, log);
    forall k
      ensures k in Scopes(Cascaded(rows, w)) <==> k in LogScopes(LogWithout(log, w))
      ensures k in Scopes(Cascaded(rows, w)) ==> Sum(Cascaded(rows, w), k) == LogSum(LogWithout(log, w), k)
    {
      CascadedSum(rows, w, k);
      LogWithoutSum(log, w, k);
      if k in Scopes(rows) { assert View(rows)[k] == LogView(log)[k]; }
    }
    assert Scopes(Cascaded(rows, w)) == LogScopes(LogWithout(log, w));
  }

  lemma {:induction false} CascadedKeeps(rows: seq<Row>, w: nat, nullsDistinct: bool)
    requires KeyHolds(rows, nullsDistinct) && DistinctIds(rows)
    ensures KeyHolds(Cascaded(rows, w), nullsDistinct) && DistinctIds(Cascaded(rows, w))
    ensures forall r | r in Cascaded(rows, w) :: r in rows
  {
    if rows != [] {
      CascadedKeeps(rows[1..], w, nullsDistinct);
      forall x | x in rows[1..]
        ensures x.id != rows[0].id && (x.scope == rows[0].scope ==> nullsDistinct && x.scope.HasNull())
      {
        var j :| 0 < j < |rows| && rows[j] == x;
      }
    }
  }
}
