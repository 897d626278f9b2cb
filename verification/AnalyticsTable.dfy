/** The stored table as the application and the migrations change it, with the log of the
    runs it must summarise as a ghost. */
module AnalyticsTable {
  import opened Options
  import opened Analytics
  import opened AnalyticsRepair

  /** The increments the upsert computes and its INSERT ... ON CONFLICT DO UPDATE. */
  method Execute(rows: seq<Row>, nullsDistinct: bool, id: nat, workflow: Option<nat>, owner: Option<nat>,
                 name: string, status: string, executionTimeMs: real, runAt: Instant, countExecution: bool)
    returns (after: seq<Row>)
    ensures after == Upserted(rows, nullsDistinct,
                              Event(id, workflow, owner, name, status, executionTimeMs, runAt, countExecution))
  {
    if workflow.None? && owner.None? {
      return rows;
    }
    var bucketStart := HourStart(runAt);
    var isSuccess: nat := if status == "success" then 1 else 0;
    var isError: nat := if status == "error" then 1 else 0;
    var execIncrement: nat := if countExecution then 1 else 0;
    var hasLatency: nat := if executionTimeMs > 0.0 then 1 else 0;
    var latency: Latency := if executionTimeMs > 0.0 then executionTimeMs else 0.0;
    var sampleIncrement: nat := if countExecution then hasLatency else 0;
    var latencyIncrement: Latency := if countExecution then latency else 0.0;
    var snapshotName := if name == "" then "Untitled workflow" else name;
    var scope := Scope(workflow, owner, bucketStart);

    match Conflict(rows, nullsDistinct, scope)
    case None =>
      var first := Counters(execIncrement, isSuccess, isError, sampleIncrement, latencyIncrement, latencyIncrement);
      after := rows + [Row(id, scope, snapshotName, first, runAt)];
    case Some(i) =>
      var c := rows[i].counters;
      var maxLatency := if countExecution && latency > 0.0 then Max(c.maxLatency, latency) else c.maxLatency;
      var bumped := Counters(c.executions + execIncrement, c.successes + isSuccess, c.errors + isError,
                             c.samples + sampleIncrement, c.totalLatency + latencyIncrement, maxLatency);
      after := rows[i := rows[i].(name := snapshotName, counters := bumped, lastRun := runAt)];
  }

  class SnapshotTable {
    var rows: seq<Row>
    var nullsDistinct: bool
    ghost var log: seq<Event>

    /** Per scope the rows sum to the runs recorded there; the key holds; every row is consistent. */
    ghost predicate Valid()
      reads this
    {
      && DistinctIds(rows)
      && KeyHolds(rows, nullsDistinct)
      && View(rows) == LogView(log)
      && forall r | r in rows :: Sane(r.counters)
    }

    constructor (nullsDistinct: bool)
      ensures Valid() && rows == [] && log == [] && this.nullsDistinct == nullsDistinct
    {
      rows, log := [], [];
      this.nullsDistinct := nullsDistinct;
      new;
      assert View([]) == LogView([]);
    }

    /** `upsert_workflow_analytics_snapshot`. `id` is the uuid a new row gets. */
    method Upsert(id: nat, workflow: Option<nat>, owner: Option<nat>, name: string, status: string,
                  executionTimeMs: real, startedAt: Option<Instant>, now: Instant, countExecution: bool)
      requires Valid() && forall r | r in rows :: r.id != id
      modifies this
      ensures Valid() && nullsDistinct == old(nullsDistinct)
      ensures var runAt := if startedAt.Some? then startedAt.value else now;
              log == old(log) + [Event(id, workflow, owner, name, status, executionTimeMs, runAt, countExecution)]
      ensures rows == Upserted(old(rows), nullsDistinct, log[|log| - 1])
    {
      var runAt := if startedAt.Some? then startedAt.value else now;
      ghost var e := Event(id, workflow, owner, name, status, executionTimeMs, runAt, countExecution);
      UpsertKeepsView(rows, nullsDistinct, log, e);
      UpsertKeepsKey(rows, nullsDistinct, e);
      UpsertKeepsDistinctIds(rows, nullsDistinct, e);
      UpsertKeepsSane(rows, nullsDistinct, e);
      var after := Execute(rows, nullsDistinct, id, workflow, owner, name, status, executionTimeMs, runAt, countExecution);
      rows, log := after, log + [e];
    }

    /** Migration 050: afterwards one row a scope, under a key that treats NULLs as equal. */
    method RepairNullUniqueness()
      requires Valid()
      modifies this
      ensures Valid() && !nullsDistinct && log == old(log)
      ensures rows == Repaired(old(rows))
    {
      RepairKeepsView(rows);
      RepairKeepsSane(rows);
      StatementsGiveCanonical(rows, rows);
      RepairedIds(rows, rows);
      rows := MergeInto(rows, rows);
      rows := DropExtras(rows, rows);
      nullsDistinct := false;
    }

    /** Deleting a workflow after migration 052: the table is that of a log without its runs. */
    method DeleteWorkflow(w: nat)
      requires Valid()
      modifies this
      ensures Valid() && nullsDistinct == old(nullsDistinct)
      ensures log == LogWithout(old(log), w)
      ensures rows == Cascaded(old(rows), w)
    {
      CascadeForgetsWorkflow(rows, log, w);
      CascadedKeeps(rows, w, nullsDistinct);
      rows, log := Cascaded(rows, w), LogWithout(log, w);
    }
  }

  lemma {:induction false} RepairedIds(all: seq<Row>, part: seq<Row>)
    requires forall r | r in part :: r in all
    requires DistinctIds(part)
    ensures DistinctIds(Canonical(all, part))
  {
    if part != [] {
      RepairedIds(all, part[1..]);
      forall x | x in Canonical(all, part[1..]) ensures x.id != part[0].id {
        var j := IdFrom(all, part[1..], x);
        assert part[j + 1] == part[1..][j];
      }
    }
  }

  /** A canonical row has the id of a row it was made from. */
  lemma IdFrom(all: seq<Row>, part: seq<Row>, x: Row) returns (j: nat)
    requires forall r | r in part :: r in all
    requires x in Canonical(all, part)
    ensures j < |part| && part[j].id == x.id
  {
    if KeepId(all, part[0].scope) == Some(part[0].id) && x == Grouped(all, part[0]) {
      j := 0;
    } else {
      j := IdFrom(all, part[1..], x);
      j := j + 1;
    }
  }
}
