/** The gate in front of a targeted Create: critical faults, then the latest
    machine validation run. */
module PreFlight {
  import opened Options
  import opened Health
  import Decimal

  const COMPLETED := "completed"

  datatype ValidationRun = ValidationRun(endTime: Option<int>, state: string, completed: int, total: int)

  /** Whether the loop moves on from `latest` to `run`. */
  predicate Beats(run: ValidationRun, latest: ValidationRun) {
    run.endTime.Some? && (latest.endTime.None? || run.endTime.value > latest.endTime.value)
  }

  /** Position of the run that the loop ends on. */
  function Latest(runs: seq<ValidationRun>): (k: nat)
    requires runs != []
    ensures k < |runs|
  {
    if |runs| == 1 then 0
    else
      var n := |runs| - 1;
      var k := Latest(runs[..n]);
      if Beats(runs[n], runs[k]) then n else k
  }

  /** The first run with the greatest end time among those that ended, or the
      first run of all if none has. */
  ghost predicate IsLatest(runs: seq<ValidationRun>, k: nat) {
    && k < |runs|
    && if exists j :: 0 <= j < |runs| && runs[j].endTime.Some? then
         && runs[k].endTime.Some?
         && (forall j :: 0 <= j < |runs| && runs[j].endTime.Some? ==> runs[j].endTime.value <= runs[k].endTime.value)
         && (forall j :: 0 <= j < k && runs[j].endTime.Some? ==> runs[j].endTime.value < runs[k].endTime.value)
       else k == 0
  }

  lemma {:induction false} LatestIsLatest(runs: seq<ValidationRun>)
    requires runs != []
    ensures IsLatest(runs, Latest(runs))
  {
    var n := |runs| - 1;
    if n > 0 {
      LatestIsLatest(runs[..n]);
      assert forall j :: 0 <= j < n ==> runs[..n][j] == runs[j];
    }
  }

  lemma LatestIsUnique(runs: seq<ValidationRun>, j: nat, k: nat)
    requires IsLatest(runs, j) && IsLatest(runs, k)
    ensures j == k
  {
  }

  function RunFailure(machineId: string, run: ValidationRun): Option<string> {
    if run.state != COMPLETED then
      Some("Machine " + machineId + " has a validation run in state " + run.state)
    else if run.completed < run.total then
      Some("Machine " + machineId + " validation: " + Decimal.PrintInt(run.completed)
           + "/" + Decimal.PrintInt(run.total)
           + " tests passed")
    else None
  }

  /** checkMachineValidation; `None` stands for an unavailable API. */
  method CheckMachineValidation(machineId: string, reply: Option<seq<ValidationRun>>) returns (failure: Option<string>)
    ensures failure == ValidationFailure(machineId, reply)
    ensures reply.None? || reply.value == [] ==> failure == None
    ensures forall k: nat :: reply.Some? && IsLatest(reply.value, k) ==>
              (failure.Some? <==> reply.value[k].state != "completed"
                                  || reply.value[k].completed < reply.value[k].total)
  {
    if reply.None? || reply.value == [] {
      return None;
    }
    var runs := reply.value;
    var latest := runs[0];
    ghost var at := 0;
    for i := 1 to |runs|
      invariant at == Latest(runs[..i]) && latest == runs[at]
    {
      assert runs[..i + 1][..i] == runs[..i];
      if runs[i].endTime.Some? && (latest.endTime.None? || runs[i].endTime.value > latest.endTime.value) {
        latest, at := runs[i], i;
      }
    }
    assert runs[..|runs|] == runs;
    LatestIsLatest(runs);
    forall k: nat | IsLatest(runs, k) ensures k == at {
      LatestIsUnique(runs, k, at);
    }
    if latest.state != COMPLETED {
      return Some("Machine " + machineId + " has a validation run in state " + latest.state);
    }
    if latest.completed < latest.total {
      return Some("Machine " + machineId + " validation: " + Decimal.PrintInt(latest.completed) + "/"
                  + Decimal.PrintInt(latest.total) + " tests passed");
    }
    return None;
  }

  function ValidationFailure(machineId: string, reply: Option<seq<ValidationRun>>): Option<string> {
    if reply.None? || reply.value == [] then None
    else RunFailure(machineId, reply.value[Latest(reply.value)])
  }

  /** What blocks a targeted Create, if anything: the alert text of the gate. */
  function GateAlert(machineId: string, replies: Replies, runs: Option<seq<ValidationRun>>): Option<string> {
    var fault := CriticalFault(machineId, replies);
    if fault.Some? then fault else ValidationFailure(machineId, runs)
  }

  /** Which run that is, written out: the first with the greatest end time
      among those that ended, or the first of all if none has. */
  lemma LatestByTimes(runs: seq<ValidationRun>, k: nat)
    requires k < |runs|
    ensures IsLatest(runs, k) <==>
            || (runs[k].endTime.Some?
                && (forall j :: 0 <= j < |runs| && runs[j].endTime.Some? ==>
                      runs[j].endTime.value <= runs[k].endTime.value)
                && (forall j :: 0 <= j < k && runs[j].endTime.Some? ==> runs[j].endTime.value < runs[k].endTime.value))
            || (k == 0 && forall j :: 0 <= j < |runs| ==> runs[j].endTime.None?)
  {
  }

  /** The gate blocks exactly if an alert of the health source in use is marked
      critical or not marked as a warning, or the latest validation run is not
      completed or has too few passed tests; answers that are unavailable never block. */
  lemma GateBlocks(machineId: string, replies: Replies, runs: Option<seq<ValidationRun>>, k: nat)
    requires runs.Some? && runs.value != [] ==> IsLatest(runs.value, k)
    ensures GateAlert(machineId, replies, runs).Some? <==>
            || (replies.reports.Some?
                && exists i, a :: 0 <= i < |replies.reports.value| && a in replies.reports.value[i]
                                  && ("critical" in a.classifications || "warning" !in a.classifications))
            || (replies.reports.None? && replies.jsonb.Some? && replies.jsonb.value.Some?
                && exists a :: a in replies.jsonb.value.value
                               && ("critical" in a.classifications || "warning" !in a.classifications))
            || (runs.Some? && runs.value != []
                && (runs.value[k].state != "completed" || runs.value[k].completed < runs.value[k].total))
    ensures CriticalFault(machineId, replies).Some? ==>
              GateAlert(machineId, replies, runs) == CriticalFault(machineId, replies)
  {
    FaultOnTexts(machineId, replies);
    if runs.Some? && runs.value != [] {
      LatestIsLatest(runs.value);
      LatestIsUnique(runs.value, k, Latest(runs.value));
    }
  }

  lemma FaultOnTexts(machineId: string, replies: Replies)
    ensures CriticalFault(machineId, replies).Some? <==>
            || (replies.reports.Some?
                && exists i, a :: 0 <= i < |replies.reports.value| && a in replies.reports.value[i]
                                  && ("critical" in a.classifications || "warning" !in a.classifications))
            || (replies.reports.None? && replies.jsonb.Some? && replies.jsonb.value.Some?
                && exists a :: a in replies.jsonb.value.value
                               && ("critical" in a.classifications || "warning" !in a.classifications))
  {
    forall a: Alert | true
      ensures SeverityOf(a) == Critical <==> "critical" in a.classifications || "warning" !in a.classifications
    {
      SeverityOnTexts(a);
    }
    if replies.reports.Some? {
      FaultIffCritical(machineId, Flatten(replies.reports.value));
      forall a | true
        ensures a in Flatten(replies.reports.value)
                <==> exists i :: 0 <= i < |replies.reports.value| && a in replies.reports.value[i]
      {
        FlattenMember(replies.reports.value, a);
      }
    } else if replies.jsonb.Some? && replies.jsonb.value.Some? {
      FaultIffCritical(machineId, replies.jsonb.value.value);
    }
  }
}
