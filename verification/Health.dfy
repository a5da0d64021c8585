/** Health alerts: how they are classified, and what the two health sources
    (health reports, and the machine's own JSON health) make of them. */
module Health {
  import opened Options
  import opened Conditions
  import Decimal

  const CRITICAL := "critical"
  const WARNING := "warning"
  const REMEDIATING := "remediating"
  const LABEL_HEALTHY := "infra.nvidia.com/healthy"
  const LABEL_ALERT_COUNT := "infra.nvidia.com/health-alert-count"

  datatype Alert = Alert(id: string, message: string, classifications: seq<string>)

  datatype Severity = Critical | Warning

  /** What a health source does to the provider status. */
  datatype Effect = Effect(ops: seq<Op>, labels: Option<map<string, string>>)

  /** The remote answers used by one health check. `None` stands for an
      unavailable API; `jsonb == Some(None)` for a machine without health data. */
  datatype Replies = Replies(reports: Option<seq<seq<Alert>>>, jsonb: Option<Option<seq<Alert>>>)

  // ---------- classification ----------

  /** Critical unless it is marked as a warning and nothing worse. */
  function SeverityOf(alert: Alert): Severity {
    if WARNING in alert.classifications && CRITICAL !in alert.classifications then Warning else Critical
  }

  function WithSeverity(alerts: seq<Alert>, severity: Severity): (kept: seq<Alert>)
    ensures forall a :: a in kept <==> a in alerts && SeverityOf(a) == severity
  {
    if alerts == [] then []
    else if SeverityOf(alerts[0]) == severity then [alerts[0]] + WithSeverity(alerts[1..], severity)
    else WithSeverity(alerts[1..], severity)
  }

  predicate Remediating(alerts: seq<Alert>) {
    exists a :: a in alerts && REMEDIATING in a.classifications
  }

  function Flatten(reports: seq<seq<Alert>>): seq<Alert> {
    if reports == [] then [] else Flatten(reports[..|reports| - 1]) + reports[|reports| - 1]
  }

  method ClassifyAlert(alert: Alert) returns (severity: Severity)
    ensures severity == SeverityOf(alert)
    ensures severity == Warning <==> "warning" in alert.classifications && "critical" !in alert.classifications
  {
    var hasCritical, hasWarning := false, false;
    for i := 0 to |alert.classifications|
      invariant hasCritical <==> CRITICAL in alert.classifications[..i]
      invariant hasWarning <==> WARNING in alert.classifications[..i]
    {
      if alert.classifications[i] == CRITICAL {
        hasCritical := true;
      } else if alert.classifications[i] == WARNING {
        hasWarning := true;
      }
    }
    assert alert.classifications[..|alert.classifications|] == alert.classifications;
    if hasCritical {
      return Critical;
    }
    return if hasWarning then Warning else Critical;
  }

  method ClassifyAlerts(alerts: seq<Alert>) returns (critical: seq<Alert>, warning: seq<Alert>)
    ensures critical == WithSeverity(alerts, Critical)
    ensures warning == WithSeverity(alerts, Warning)
  {
    critical, warning := [], [];
    for i := 0 to |alerts|
      invariant critical == WithSeverity(alerts[..i], Critical)
      invariant warning == WithSeverity(alerts[..i], Warning)
    {
      assert alerts[..i + 1] == alerts[..i] + [alerts[i]];
      WithSeveritySnoc(alerts[..i], alerts[i], Critical);
      WithSeveritySnoc(alerts[..i], alerts[i], Warning);
      var severity := ClassifyAlert(alerts[i]);
      if severity == Warning {
        warning := warning + [alerts[i]];
      } else {
        critical := critical + [alerts[i]];
      }
    }
    assert alerts[..|alerts|] == alerts;
  }

  method HasRemediatingAlert(alerts: seq<Alert>) returns (found: bool)
    ensures found <==> Remediating(alerts)
    ensures found <==> exists a :: a in alerts && "remediating" in a.classifications
  {
    for i := 0 to |alerts|
      invariant !Remediating(alerts[..i])
    {
      for j := 0 to |alerts[i].classifications|
        invariant REMEDIATING !in alerts[i].classifications[..j]
      {
        if alerts[i].classifications[j] == REMEDIATING {
          assert alerts[i] in alerts;
          return true;
        }
      }
      assert alerts[..i + 1] == alerts[..i] + [alerts[i]];
    }
    assert alerts[..|alerts|] == alerts;
    return false;
  }

  method CollectAlerts(reports: seq<seq<Alert>>) returns (all: seq<Alert>)
    ensures all == Flatten(reports)
  {
    all := [];
    for i := 0 to |reports|
      invariant all == Flatten(reports[..i])
    {
      assert reports[..i + 1][..i] == reports[..i];
      all := all + reports[i];
    }
    assert reports[..|reports|] == reports;
  }

  lemma {:induction false} WithSeverityAppend(a: seq<Alert>, b: seq<Alert>, severity: Severity)
    ensures WithSeverity(a + b, severity) == WithSeverity(a, severity) + WithSeverity(b, severity)
  {
    if a == [] {
      assert a + b == b;
    } else {
      assert (a + b)[1..] == a[1..] + b;
      WithSeverityAppend(a[1..], b, severity);
    }
  }

  lemma WithSeveritySnoc(alerts: seq<Alert>, alert: Alert, severity: Severity)
    ensures WithSeverity(alerts + [alert], severity)
            == WithSeverity(alerts, severity) + if SeverityOf(alert) == severity then [alert] else []
  {
    WithSeverityAppend(alerts, [alert], severity);
    assert [alert][1..] == [];
  }

  /** Classification loses and invents nothing. */
  lemma {:induction false} ClassificationPartitions(alerts: seq<Alert>)
    ensures |WithSeverity(alerts, Critical)| + |WithSeverity(alerts, Warning)| == |alerts|
    ensures multiset(WithSeverity(alerts, Critical)) + multiset(WithSeverity(alerts, Warning)) == multiset(alerts)
  {
    if alerts != [] {
      ClassificationPartitions(alerts[1..]);
      assert alerts == [alerts[0]] + alerts[1..];
    }
  }

  // ---------- the two sources ----------

  function CriticalReason(first: Alert): string {
    if first.classifications != [] then first.classifications[0] else "CriticalFault"
  }

  function CriticalMessage(first: Alert, count: nat): string {
    if first.message != "" then first.message
    else "Machine has " + Decimal.Print(count) + " critical health alert(s)"
  }

  function RemediationOp(active: bool): Op {
    if active then Op(NicoFaultRemediation, True, "RemediationInProgress", "Automated fault remediation in progress")
    else Op(NicoFaultRemediation, False, "NoRemediation", "No active fault remediation")
  }

  /** The report path of updateMachineHealthFromReports. */
  function ReportEffect(reports: seq<seq<Alert>>): Effect {
    var all := Flatten(reports);
    if all == [] then
      Effect([Op(MachineHealthy, True, "Healthy", "No health alerts"), RemediationOp(false)],
             Some(map[LABEL_HEALTHY := "true"]))
    else
      var verdict := AlertVerdict(all);
      Effect(verdict.ops + [RemediationOp(Remediating(all))], verdict.labels)
  }

  /** The fallback of updateMachineHealthFromJSONB. */
  function JsonEffect(alerts: seq<Alert>): Effect {
    if alerts == [] then
      Effect([Op(MachineHealthy, True, "Healthy", "Machine has no health alerts"), RemediationOp(false)],
             Some(map[LABEL_HEALTHY := "true"]))
    else
      var verdict := AlertVerdict(alerts);
      Effect(verdict.ops + [RemediationOp(Remediating(alerts))], verdict.labels)
  }

  /** The critical / warning branches; neither branch is taken when both lists are empty. */
  function AlertVerdict(all: seq<Alert>): Effect {
    var critical, warning := WithSeverity(all, Critical), WithSeverity(all, Warning);
    if critical != [] then
      Effect([Op(MachineHealthy, False, CriticalReason(critical[0]), CriticalMessage(critical[0], |critical|))],
             Some(map[LABEL_HEALTHY := "false", LABEL_ALERT_COUNT := Decimal.Print(|all|)]))
    else if warning != [] then
      Effect([Op(MachineHealthy, True, "HealthyWithWarnings",
                 "Machine has " + Decimal.Print(|warning|) + " warning alert(s)")],
             Some(map[LABEL_HEALTHY := "true", LABEL_ALERT_COUNT := Decimal.Print(|warning|)]))
    else
      Effect([], None)
  }

  /** Which source an Update ends up using, and what it does. */
  function HealthEffect(machineId: Option<string>, replies: Replies): Effect {
    if machineId.None? || machineId.value == "" then Effect([], None)
    else if replies.reports.Some? then ReportEffect(replies.reports.value)
    else if replies.jsonb.Some? && replies.jsonb.value.Some? then JsonEffect(replies.jsonb.value.value)
    else Effect([], None)
  }

  /** checkCriticalFaults: the same two sources, asked before an instance is created. */
  function CriticalFault(machineId: string, replies: Replies): Option<string> {
    if replies.reports.Some? then FaultIn(machineId, Flatten(replies.reports.value))
    else if replies.jsonb.Some? && replies.jsonb.value.Some? then FaultIn(machineId, replies.jsonb.value.value)
    else None
  }

  function FaultIn(machineId: string, alerts: seq<Alert>): Option<string> {
    var critical := WithSeverity(alerts, Critical);
    if critical == [] then None
    else if critical[0].message != "" then Some(critical[0].message)
    else Some("Machine " + machineId + " has " + Decimal.Print(|critical|) + " critical health alert(s)")
  }

  method CheckCriticalFaults(machineId: string, replies: Replies) returns (fault: Option<string>)
    ensures fault == CriticalFault(machineId, replies)
  {
    var alerts := [];
    if replies.reports.Some? {
      alerts := CollectAlerts(replies.reports.value);
    } else {
      if replies.jsonb.None? || replies.jsonb.value.None? || replies.jsonb.value.value == [] {
        return None;
      }
      alerts := replies.jsonb.value.value;
    }
    var critical, _ := ClassifyAlerts(alerts);
    if critical == [] {
      return None;
    }
    var message := "Machine " + machineId + " has " + Decimal.Print(|critical|) + " critical health alert(s)";
    if critical[0].message != "" {
      message := critical[0].message;
    }
    return Some(message);
  }

  // ---------- agreement of the sources ----------

  /** Status and reason that an effect leaves for a condition type. */
  function Leaves(e: Effect, kind: Kind): Option<(Truth, string)> {
    var op := LastOp(e.ops, kind);
    if op.None? then None else Some((op.value.status, op.value.reason))
  }

  lemma VerdictShape(all: seq<Alert>)
    requires all != []
    ensures var critical := exists a :: a in all && SeverityOf(a) == Critical;
            && |AlertVerdict(all).ops| == 1
            && AlertVerdict(all).ops[0].kind == MachineHealthy
            && AlertVerdict(all).ops[0].status == (if critical then False else True)
            && AlertVerdict(all).labels == Some(map[LABEL_HEALTHY := if critical then "false" else "true",
                                                    LABEL_ALERT_COUNT := Decimal.Print(|all|)])
  {
    ClassificationPartitions(all);
    assert all[0] in all;
    var critical := WithSeverity(all, Critical);
    if critical != [] {
      assert critical[0] in critical;
    }
  }

  /** What a health verdict on these alerts must say: MachineHealthy exactly
      once, False iff some alert is critical, a remediation verdict, and the
      total number of alerts as a label. */
  ghost predicate SoundVerdict(all: seq<Alert>, e: Effect) {
    && |e.ops| == 2 && e.ops[0].kind == MachineHealthy && e.ops[1].kind == NicoFaultRemediation
    && e.ops[0].status == (if exists a :: a in all && SeverityOf(a) == Critical then False else True)
    && e.ops[1].status == (if exists a :: a in all && REMEDIATING in a.classifications then True else False)
    && e.labels.Some?
    && (if all == [] then LABEL_ALERT_COUNT !in e.labels.value
        else LABEL_ALERT_COUNT in e.labels.value && e.labels.value[LABEL_ALERT_COUNT] == Decimal.Print(|all|))
  }

  lemma ReportVerdict(reports: seq<seq<Alert>>)
    ensures SoundVerdict(Flatten(reports), ReportEffect(reports))
  {
    if Flatten(reports) != [] {
      VerdictShape(Flatten(reports));
    }
  }

  lemma JsonVerdict(alerts: seq<Alert>)
    ensures SoundVerdict(alerts, JsonEffect(alerts))
  {
    if alerts != [] {
      VerdictShape(alerts);
    }
  }

  /** An alert of severity critical, on its texts: "warning" alone makes a difference. */
  lemma SeverityOnTexts(alert: Alert)
    ensures SeverityOf(alert) == Critical
            <==> "critical" in alert.classifications || "warning" !in alert.classifications
  {
  }

  lemma FlattenMember(reports: seq<seq<Alert>>, alert: Alert)
    ensures alert in Flatten(reports) <==> exists i :: 0 <= i < |reports| && alert in reports[i]
  {
    if alert in Flatten(reports) {
      var i := FlattenSource(reports, alert);
    } else if i :| 0 <= i < |reports| && alert in reports[i] {
      FlattenContains(reports, i, alert);
    }
  }

  lemma {:induction false} FlattenSource(reports: seq<seq<Alert>>, alert: Alert) returns (i: nat)
    requires alert in Flatten(reports)
    ensures i < |reports| && alert in reports[i]
  {
    var n := |reports| - 1;
    if alert in reports[n] {
      i := n;
    } else {
      i := FlattenSource(reports[..n], alert);
    }
  }

  /** Alerts are collected report by report, in order. */
  lemma {:induction false} FlattenInOrder(first: seq<seq<Alert>>, rest: seq<seq<Alert>>, report: seq<Alert>)
    ensures Flatten(first + rest) == Flatten(first) + Flatten(rest) && Flatten([report]) == report
  {
    assert [report][..0] == [];
    if rest == [] {
      assert first + rest == first;
    } else {
      var n := |rest| - 1;
      assert (first + rest)[..|first| + n] == first + rest[..n];
      FlattenInOrder(first, rest[..n], report);
    }
  }

  /** The verdict of the report path, on the texts of the alerts: MachineHealthy
      is False iff some alert is marked critical or not marked as a warning. */
  lemma ReportOnTexts(reports: seq<seq<Alert>>)
    ensures var e := ReportEffect(reports);
            && |e.ops| == 2 && e.ops[0].kind == MachineHealthy && e.ops[1].kind == NicoFaultRemediation
            && e.ops[0].status
               == (if exists i, a :: 0 <= i < |reports| && a in reports[i]
                                     && ("critical" in a.classifications || "warning" !in a.classifications)
                   then False else True)
            && e.ops[1].status == (if exists i, a :: 0 <= i < |reports| && a in reports[i]
                                                       && "remediating" in a.classifications
                                   then True else False)
  {
    ReportVerdict(reports);
    forall a | true
      ensures a in Flatten(reports) <==> exists i :: 0 <= i < |reports| && a in reports[i]
    {
      FlattenMember(reports, a);
    }
    forall a: Alert | true
      ensures SeverityOf(a) == Critical <==> "critical" in a.classifications || "warning" !in a.classifications
    {
      SeverityOnTexts(a);
    }
  }

  /** The verdict of the fallback, and the labels of both, likewise. */
  lemma JsonOnTexts(alerts: seq<Alert>)
    ensures var e := JsonEffect(alerts);
            var critical := exists a :: a in alerts
                                        && ("critical" in a.classifications || "warning" !in a.classifications);
            && |e.ops| == 2 && e.ops[0].kind == MachineHealthy && e.ops[1].kind == NicoFaultRemediation
            && e.ops[0].status == (if critical then False else True)
            && e.ops[1].status == (if exists a :: a in alerts && "remediating" in a.classifications
                                 then True else False)
            && e.labels == Some(
                 if alerts == [] then map["infra.nvidia.com/healthy" := "true"]
                 else map["infra.nvidia.com/healthy" := if critical then "false" else "true",
                          "infra.nvidia.com/health-alert-count" := Decimal.Print(|alerts|)])
  {
    JsonVerdict(alerts);
    if alerts != [] {
      VerdictShape(alerts);
    }
    forall a: Alert | true
      ensures SeverityOf(a) == Critical <==> "critical" in a.classifications || "warning" !in a.classifications
    {
      SeverityOnTexts(a);
    }
  }

  /** Reason and message of an unhealthy verdict are those of the first alert
      that is marked critical or not marked as a warning. */
  lemma FirstCriticalSpeaks(alerts: seq<Alert>, k: nat, machineId: string)
    requires k < |alerts| && ("critical" in alerts[k].classifications || "warning" !in alerts[k].classifications)
    requires forall j :: 0 <= j < k ==>
               "warning" in alerts[j].classifications && "critical" !in alerts[j].classifications
    ensures JsonEffect(alerts).ops != [] && CriticalFault(machineId, Replies(Some([alerts]), None)).Some?
    ensures var op := JsonEffect(alerts).ops[0];
            && op.reason == (if alerts[k].classifications == [] then "CriticalFault" else alerts[k].classifications[0])
            && (alerts[k].message != "" ==> op.message == alerts[k].message)
    ensures alerts[k].message != "" ==>
              CriticalFault(machineId, Replies(Some([alerts]), None)) == Some(alerts[k].message)
  {
    FirstCritical(alerts, k);
    JsonVerdict(alerts);
    assert Flatten([alerts]) == alerts by {
      assert [alerts][..0] == [];
    }
  }

  lemma {:induction false} FirstCritical(alerts: seq<Alert>, k: nat)
    requires k < |alerts| && SeverityOf(alerts[k]) == Critical
    requires forall j :: 0 <= j < k ==> SeverityOf(alerts[j]) == Warning
    ensures WithSeverity(alerts, Critical) != [] && WithSeverity(alerts, Critical)[0] == alerts[k]
  {
    if k > 0 {
      FirstCritical(alerts[1..], k - 1);
    }
  }

  /** However the alerts are spread over reports, the report path and the
      fallback reach the same verdict. */
  lemma SourcesAgree(alerts: seq<Alert>, reports: seq<seq<Alert>>)
    requires Flatten(reports) == alerts
    ensures Leaves(ReportEffect(reports), MachineHealthy) == Leaves(JsonEffect(alerts), MachineHealthy)
    ensures Leaves(ReportEffect(reports), NicoFaultRemediation) == Leaves(JsonEffect(alerts), NicoFaultRemediation)
    ensures Leaves(ReportEffect(reports), MachineHealthy).Some?
    ensures ReportEffect(reports).labels == JsonEffect(alerts).labels
    ensures LABEL_ALERT_COUNT in ReportEffect(reports).labels.value <==> alerts != []
  {
    ReportVerdict(reports);
    JsonVerdict(alerts);
    TwoOps(ReportEffect(reports));
    TwoOps(JsonEffect(alerts));
  }

  lemma TwoOps(e: Effect)
    requires |e.ops| == 2 && e.ops[0].kind == MachineHealthy && e.ops[1].kind == NicoFaultRemediation
    ensures LastOp(e.ops, MachineHealthy) == Some(e.ops[0])
    ensures LastOp(e.ops, NicoFaultRemediation) == Some(e.ops[1])
    ensures forall k :: k != MachineHealthy && k != NicoFaultRemediation ==> LastOp(e.ops, k) == None
  {
    forall k | true
      ensures LastOp(e.ops, k) ==
              if k == NicoFaultRemediation then Some(e.ops[1]) else if k == MachineHealthy then Some(e.ops[0]) else None
    {
      LastOpShort(e.ops, k);
    }
  }

  /** An effect either touches no condition, or exactly MachineHealthy and then NicoFaultRemediation. */
  lemma EffectShape(machineId: Option<string>, replies: Replies)
    ensures var e := HealthEffect(machineId, replies);
            || e == Effect([], None)
            || (|e.ops| == 2 && e.ops[0].kind == MachineHealthy && e.ops[1].kind == NicoFaultRemediation
               && e.labels.Some?)
  {
    if replies.reports.Some? {
      ReportVerdict(replies.reports.value);
    } else if replies.jsonb.Some? && replies.jsonb.value.Some? {
      JsonVerdict(replies.jsonb.value.value);
    }
  }

  /** The critical-fault check blocks exactly when an Update of the same machine,
      seeing the same answers, would turn MachineHealthy False. */
  lemma GateAgreesWithUpdate(machineId: string, replies: Replies)
    requires machineId != ""
    ensures CriticalFault(machineId, replies).Some? <==>
            LastOp(HealthEffect(Some(machineId), replies).ops, MachineHealthy).Some?
            && LastOp(HealthEffect(Some(machineId), replies).ops, MachineHealthy).value.status == False
  {
    EffectShape(Some(machineId), replies);
    var e := HealthEffect(Some(machineId), replies);
    if e.ops != [] {
      TwoOps(e);
    }
    if replies.reports.Some? {
      ReportVerdict(replies.reports.value);
      FaultIffCritical(machineId, Flatten(replies.reports.value));
    } else if replies.jsonb.Some? && replies.jsonb.value.Some? {
      JsonVerdict(replies.jsonb.value.value);
      FaultIffCritical(machineId, replies.jsonb.value.value);
    }
  }

  lemma FaultIffCritical(machineId: string, alerts: seq<Alert>)
    ensures FaultIn(machineId, alerts).Some? <==> exists a :: a in alerts && SeverityOf(a) == Critical
  {
    var critical := WithSeverity(alerts, Critical);
    if critical != [] {
      assert critical[0] in critical;
    }
  }

  // ---------- the alert this controller writes itself ----------

  /** The alert of reportMHCHealthIssue. */
  function MhcAlert(machineName: string): Alert {
    Alert("mhc-remediation-triggered", "MachineHealthCheck triggered remediation for machine " + machineName,
          [CRITICAL])
  }

  lemma MhcAlertIsCritical(machineName: string)
    ensures SeverityOf(MhcAlert(machineName)) == Critical
  {
    assert CRITICAL in MhcAlert(machineName).classifications;
  }

  lemma {:induction false} FlattenContains(reports: seq<seq<Alert>>, i: nat, alert: Alert)
    requires i < |reports| && alert in reports[i]
    ensures alert in Flatten(reports)
  {
    if i < |reports| - 1 {
      FlattenContains(reports[..|reports| - 1], i, alert);
    }
  }
}
