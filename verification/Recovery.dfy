/** Startup recovery over the whole table of pipelines, with API calls between its statements. */
module Recovery {
  import opened Rows
  import opened Status
  import opened Engine

  type Id = string

  type Board = map<Id, Status>

  datatype RunRow = RunRow(pipeline: Id, run: Run)

  /** An API request for one pipeline. */
  datatype Call = Call(pipeline: Id, event: Event)

  predicate IsApi(c: Call) {
    c.event in {RequestRun, RequestPause}
  }

  /** A call for an unknown pipeline is refused. */
  function ApplyCall(b: Board, c: Call): Board {
    if c.pipeline in b then b[c.pipeline := Cas(c.event, b[c.pipeline])] else b
  }

  function Apply(b: Board, calls: seq<Call>): Board {
    if calls == [] then b else ApplyCall(Apply(b, calls[..|calls| - 1]), Last(calls))
  }

  function EventsFor(calls: seq<Call>, id: Id): seq<Event> {
    if calls == [] then []
    else EventsFor(calls[..|calls| - 1], id)
         + if Last(calls).pipeline == id then [Last(calls).event] else []
  }

  /** One call moves its own pipeline and no other. */
  lemma ApplyOne(before: Board, c: Call, id: Id)
    requires id in before
    ensures var after := ApplyCall(before, c);
      after.Keys == before.Keys
      && after[id] == if c.pipeline == id then Cas(c.event, before[id]) else before[id]
  {
  }

  /** Pipelines do not influence each other. */
  lemma {:induction false} ApplyIsPerPipeline(b: Board, calls: seq<Call>, id: Id)
    requires id in b
    ensures Apply(b, calls).Keys == b.Keys
    ensures Apply(b, calls)[id] == After(b[id], EventsFor(calls, id))
  {
    if calls != [] {
      var front, c := calls[..|calls| - 1], Last(calls);
      ApplyIsPerPipeline(b, front, id);
      ApplyOne(Apply(b, front), c, id);
      AfterSnoc(b[id], EventsFor(front, id), c.event);
      assert EventsFor(front, id) + [] == EventsFor(front, id);
    }
  }

  lemma {:induction false} ApplyNeverStarts(b: Board, calls: seq<Call>)
    requires forall i :: 0 <= i < |calls| ==> IsApi(calls[i])
    ensures Apply(b, calls).Keys == b.Keys
    ensures forall id :: id in b && Apply(b, calls)[id] == RUNNING ==> b[id] == RUNNING
  {
    if calls != [] {
      ApplyNeverStarts(b, calls[..|calls| - 1]);
    }
  }

  function Running(b: Board): set<Id> {
    set id | id in b && b[id] == RUNNING
  }

  /** recover_running_failed_bulk on one row. */
  function Closed(r: RunRow, ids: set<Id>): RunRow {
    if r.pipeline in ids && r.run.status == RunRunning then r.(run := r.run.(status := RunFailed)) else r
  }

  /**
   * What closing the open runs of these pipelines does to a list of runs: one changes
   * exactly if it is RUNNING and its pipeline is among them, and then in its status only.
   */
  predicate ClosedRuns(before: seq<RunRow>, after: seq<RunRow>, ids: set<Id>) {
    |after| == |before|
    && forall i :: 0 <= i < |before| ==>
      && after[i].pipeline == before[i].pipeline
      && after[i].run.read == before[i].run.read && after[i].run.written == before[i].run.written
      && (after[i] != before[i] <==> before[i].run.status == RunRunning && before[i].pipeline in ids)
      && (after[i] != before[i] ==> after[i].run.status == RunFailed)
  }

  class Catalog {
    var status: Board
    var runs: seq<RunRow>

    method ListStuckRunningIds() returns (ids: set<Id>)
      ensures ids == Running(status)
    {
      ids := set id | id in status && status[id] == RUNNING;
    }

    method RecoverRunningFailedBulk(ids: set<Id>)
      modifies this`runs
      ensures ClosedRuns(old(runs), runs, ids)
    {
      runs := seq(|runs|, i requires 0 <= i < |runs| reads this => Closed(runs[i], ids));
    }

    method MarkRunRequestedBulk(ids: set<Id>) returns (updated: nat)
      modifies this`status
      ensures status.Keys == old(status).Keys
      ensures forall id :: id in status ==>
        status[id] == if id in ids && old(status)[id] == RUNNING then RUN_REQUESTED else old(status)[id]
      ensures updated == |ids * Running(old(status))|
    {
      updated := |set id | id in status && id in ids && status[id] == RUNNING|;
      assert (set id | id in status && id in ids && status[id] == RUNNING) == ids * Running(status);
      status := map id | id in status :: if id in ids then Cas(Requeue, status[id]) else status[id];
    }

    /** The startup of main_loop; the API may act between listing and updating. */
    method Startup(calls: seq<Call>)
      requires forall i :: 0 <= i < |calls| ==> IsApi(calls[i])
      modifies this
      // nothing is RUNNING, and what was still RUNNING is queued again
      ensures Running(status) == {} && status.Keys == old(status).Keys
      ensures Apply(old(status), calls).Keys == status.Keys
      ensures forall id :: id in status ==>
        status[id] == var now := Apply(old(status), calls)[id]; if now == RUNNING then RUN_REQUESTED else now
      // the open runs of the pipelines found RUNNING are closed, no other run changes
      ensures ClosedRuns(old(runs), runs, Running(old(status)))
    {
      var stuck := ListStuckRunningIds();
      ApplyNeverStarts(status, calls);
      status := Apply(status, calls);
      assert forall id :: id in status && status[id] == RUNNING ==> id in stuck;
      if stuck != {} {
        RecoverRunningFailedBulk(stuck);
        var _ := MarkRunRequestedBulk(stuck);
      }
    }
  }
}
