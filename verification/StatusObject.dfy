/** The actuator's own code over a decoded provider status, as it updates the
    object in place. Each method is proved against the functions of Provider. */
module StatusObject {
  import opened Options
  import opened Conditions
  import opened Health
  import opened Provider
  import Decimal

  /** Process-wide gauge of machines with critical faults. */
  class Metrics {
    var machinesUnhealthy: int

    constructor ()
      ensures machinesUnhealthy == 0
    {
      machinesUnhealthy := 0;
    }
  }

  /** Calls of DeleteMachineHealthReport with source "k8s-mhc", by machine id. */
  class ReportCleanup {
    var deleted: seq<string>

    constructor ()
      ensures deleted == []
    {
      deleted := [];
    }
  }

  class ProviderStatus {
    var instanceId: Option<string>
    var machineId: Option<string>
    var instanceState: Option<InstanceStatus>
    var addresses: seq<string>
    var conditions: seq<Condition>
    var healthLabels: map<string, string>

    function View(): StatusView
      reads this
    {
      StatusView(instanceId, machineId, instanceState, addresses, conditions, healthLabels)
    }

    /** getProviderStatus. */
    constructor Decode(view: StatusView)
      ensures View() == view
    {
      instanceId, machineId, instanceState := view.instanceId, view.machineId, view.instanceState;
      addresses, conditions, healthLabels := view.addresses, view.conditions, view.healthLabels;
    }

    method SetCondition(kind: Kind, status: Truth, reason: string, message: string, now: int)
      modifies this`conditions
      ensures conditions == Upsert(old(conditions), Op(kind, status, reason, message), now)
    {
      var i := 0;
      while i < |conditions| && conditions[i].kind != kind
        invariant i <= |conditions|
        invariant forall j :: 0 <= j < i ==> conditions[j].kind != kind
      {
        i := i + 1;
      }
      IndexIs(conditions, kind, i);
      if i == |conditions| {
        conditions := conditions + [Condition(kind, status, reason, message, now)];
        return;
      }
      if conditions[i].status != status {
        conditions := conditions[i := conditions[i].(status := status, since := now)];
      }
      conditions := conditions[i := conditions[i].(reason := reason, message := message)];
    }

    method IsConditionFalse(kind: Kind) returns (isFalse: bool)
      ensures isFalse <==> IsFalse(conditions, kind)
      ensures isFalse <==> exists i :: 0 <= i < |conditions| && conditions[i].kind == kind
                                       && conditions[i].status == False
                                       && forall j :: 0 <= j < i ==> conditions[j].kind != kind
    {
      for i := 0 to |conditions|
        invariant forall j :: 0 <= j < i ==> conditions[j].kind != kind
      {
        if conditions[i].kind == kind {
          IndexIs(conditions, kind, i);
          return conditions[i].status == False;
        }
      }
      IndexIs(conditions, kind, |conditions|);
      return false;
    }

    method SetInstanceStateConditions(status: InstanceStatus, now: int)
      modifies this`conditions
      ensures conditions == ApplyOps(old(conditions), InstanceOps(status), now)
    {
      ghost var ops := InstanceOps(status);
      if |ops| == 1 {
        ApplyOne(conditions, ops[0], now);
      } else if |ops| == 2 {
        ApplyTwo(conditions, ops[0], ops[1], now);
      } else {
        ApplyThree(conditions, ops[0], ops[1], ops[2], now);
      }
      match status {
        case Pending =>
          SetCondition(InstanceAllocating, True, "Pending", "Instance creation request sent, awaiting allocation", now);
          SetCondition(InstanceReady, False, "Pending", "Instance is pending allocation", now);
        case Provisioning =>
          SetCondition(InstanceAllocating, False, "Allocated", "Instance has been allocated", now);
          SetCondition(InstanceProvisioning, True, "Provisioning", "NICo is provisioning the machine", now);
          SetCondition(InstanceReady, False, "Provisioning", "Instance is being provisioned", now);
        case Configuring =>
          SetCondition(InstanceProvisioning, False, "Provisioned", "Machine has been provisioned", now);
          SetCondition(InstanceBootstrapping, True, "Configuring", "OS installed, configuration in progress", now);
          SetCondition(InstanceReady, False, "Configuring", "Instance is being configured", now);
        case Ready =>
          SetCondition(InstanceBootstrapping, False, "Complete", "Bootstrap completed", now);
          SetCondition(InstanceReady, True, "InstanceRunning", "Instance is fully operational", now);
        case Updating =>
          SetCondition(InstanceReady, False, "Updating", "Instance is being updated", now);
        case Rebooting =>
          SetCondition(InstanceReady, False, "Rebooting", "Instance is rebooting", now);
        case Terminating =>
          SetCondition(InstanceTerminating, True, "Terminating", "Instance deletion in progress", now);
          SetCondition(InstanceReady, False, "Terminating", "Instance is terminating", now);
        case Error =>
          SetCondition(InstanceError, True, "Error", "Instance is in a terminal error state", now);
          SetCondition(InstanceReady, False, "Error", "Instance encountered an error", now);
        case Other(text) =>
          SetCondition(InstanceReady, False, "Unknown", "Instance is in unknown state: " + text, now);
      }
    }

    /** The part of updateMachineHealthFromReports that writes the status. */
    method RecordReports(reports: seq<seq<Alert>>, now: int)
      modifies this`conditions, this`healthLabels
      ensures conditions == ApplyOps(old(conditions), ReportEffect(reports).ops, now)
      ensures ReportEffect(reports).labels == Some(healthLabels)
    {
      var all := CollectAlerts(reports);
      ghost var effect := ReportEffect(reports);
      ReportVerdict(reports);
      ApplyTwo(conditions, effect.ops[0], effect.ops[1], now);
      if all == [] {
        SetCondition(MachineHealthy, True, "Healthy", "No health alerts", now);
        healthLabels := map[LABEL_HEALTHY := "true"];
        SetCondition(NicoFaultRemediation, False, "NoRemediation", "No active fault remediation", now);
      } else {
        ClassificationPartitions(all);
        var critical, warning := ClassifyAlerts(all);
        if critical != [] {
          var reason := "CriticalFault";
          var message := "Machine has " + Decimal.Print(|critical|) + " critical health alert(s)";
          if critical[0].classifications != [] {
            reason := critical[0].classifications[0];
          }
          if critical[0].message != "" {
            message := critical[0].message;
          }
          SetCondition(MachineHealthy, False, reason, message, now);
          healthLabels := map[LABEL_HEALTHY := "false", LABEL_ALERT_COUNT := Decimal.Print(|all|)];
        } else if warning != [] {
          SetCondition(MachineHealthy, True, "HealthyWithWarnings",
                       "Machine has " + Decimal.Print(|warning|) + " warning alert(s)", now);
          healthLabels := map[LABEL_HEALTHY := "true", LABEL_ALERT_COUNT := Decimal.Print(|warning|)];
        }
        var remediating := HasRemediatingAlert(all);
        if remediating {
          SetCondition(NicoFaultRemediation, True, "RemediationInProgress",
                       "Automated fault remediation in progress", now);
        } else {
          SetCondition(NicoFaultRemediation, False, "NoRemediation", "No active fault remediation", now);
        }
      }
    }

    /** updateMachineHealthFromReports; false asks the caller to fall back. */
    method UpdateHealthFromReports(id: string, reports: Option<seq<seq<Alert>>>, wasUnhealthy: bool,
                                   cleanup: ReportCleanup, now: int)
      returns (available: bool)
      requires wasUnhealthy == IsFalse(conditions, MachineHealthy)
      modifies this`conditions, this`healthLabels, cleanup
      ensures available <==> reports.Some?
      ensures !available ==>
                && conditions == old(conditions) && healthLabels == old(healthLabels)
                && cleanup.deleted == old(cleanup.deleted)
      ensures available ==>
                && conditions == ApplyOps(old(conditions), ReportEffect(reports.value).ops, now)
                && ReportEffect(reports.value).labels == Some(healthLabels)
                && cleanup.deleted == old(cleanup.deleted)
                   + if wasUnhealthy && !IsFalse(conditions, MachineHealthy) then [id] else []
    {
      if reports.None? {
        return false;
      }
      RecordReports(reports.value, now);
      var isUnhealthy := IsConditionFalse(MachineHealthy);
      if wasUnhealthy && !isUnhealthy {
        cleanup.deleted := cleanup.deleted + [id];
      }
      return true;
    }

    /** updateMachineHealthFromJSONB. */
    method UpdateHealthFromJson(jsonb: Option<Option<seq<Alert>>>, now: int)
      modifies this`conditions, this`healthLabels
      ensures jsonb.None? || jsonb.value.None? ==> conditions == old(conditions) && healthLabels == old(healthLabels)
      ensures jsonb.Some? && jsonb.value.Some? ==>
                && conditions == ApplyOps(old(conditions), JsonEffect(jsonb.value.value).ops, now)
                && JsonEffect(jsonb.value.value).labels == Some(healthLabels)
    {
      if jsonb.None? || jsonb.value.None? {
        return;
      }
      RecordJson(jsonb.value.value, now);
    }

    method RecordJson(alerts: seq<Alert>, now: int)
      modifies this`conditions, this`healthLabels
      ensures conditions == ApplyOps(old(conditions), JsonEffect(alerts).ops, now)
      ensures JsonEffect(alerts).labels == Some(healthLabels)
    {
      ghost var effect := JsonEffect(alerts);
      JsonVerdict(alerts);
      ApplyTwo(conditions, effect.ops[0], effect.ops[1], now);
      if alerts == [] {
        SetCondition(MachineHealthy, True, "Healthy", "Machine has no health alerts", now);
        healthLabels := map[LABEL_HEALTHY := "true"];
        SetCondition(NicoFaultRemediation, False, "NoRemediation", "No active fault remediation", now);
        return;
      }
      ClassificationPartitions(alerts);
      var critical, warning := ClassifyAlerts(alerts);
      if critical != [] {
        var reason := "CriticalFault";
        var message := "Machine has " + Decimal.Print(|critical|) + " critical health alert(s)";
        if critical[0].message != "" {
          message := critical[0].message;
        }
        if critical[0].classifications != [] {
          reason := critical[0].classifications[0];
        }
        SetCondition(MachineHealthy, False, reason, message, now);
        healthLabels := map[LABEL_HEALTHY := "false", LABEL_ALERT_COUNT := Decimal.Print(|alerts|)];
      } else if warning != [] {
        SetCondition(MachineHealthy, True, "HealthyWithWarnings",
                     "Machine has " + Decimal.Print(|warning|) + " warning alert(s)", now);
        healthLabels := map[LABEL_HEALTHY := "true", LABEL_ALERT_COUNT := Decimal.Print(|warning|)];
      }
      var remediating := HasRemediatingAlert(alerts);
      if remediating {
        SetCondition(NicoFaultRemediation, True, "RemediationInProgress",
                       "Automated fault remediation in progress", now);
      } else {
        SetCondition(NicoFaultRemediation, False, "NoRemediation", "No active fault remediation", now);
      }
    }

    /** updateMachineHealth. */
    method UpdateMachineHealth(id: Option<string>, replies: Replies, metrics: Metrics, cleanup: ReportCleanup, now: int)
      modifies this`conditions, this`healthLabels, metrics, cleanup
      ensures var effect := HealthEffect(id, replies);
              && conditions == ApplyOps(old(conditions), effect.ops, now)
              && healthLabels == (if effect.labels.Some? then effect.labels.value else old(healthLabels))
      ensures metrics.machinesUnhealthy == old(metrics.machinesUnhealthy) + GaugeStep(old(conditions), conditions)
      ensures cleanup.deleted == old(cleanup.deleted)
              + if id.Some? && id.value != "" && replies.reports.Some?
                   && IsFalse(old(conditions), MachineHealthy) && !IsFalse(conditions, MachineHealthy)
                then [id.value] else []
    {
      if id.None? || id.value == "" {
        return;
      }
      var wasUnhealthy := IsConditionFalse(MachineHealthy);
      var available := UpdateHealthFromReports(id.value, replies.reports, wasUnhealthy, cleanup, now);
      if !available {
        UpdateHealthFromJson(replies.jsonb, now);
      }
      TrackUnhealthyGauge(wasUnhealthy, metrics);
    }

    method TrackUnhealthyGauge(wasUnhealthy: bool, metrics: Metrics)
      modifies metrics
      ensures metrics.machinesUnhealthy
              == old(metrics.machinesUnhealthy)
                 + (if IsFalse(conditions, MachineHealthy) then 1 else 0) - (if wasUnhealthy then 1 else 0)
    {
      var isUnhealthy := IsConditionFalse(MachineHealthy);
      if !wasUnhealthy && isUnhealthy {
        metrics.machinesUnhealthy := metrics.machinesUnhealthy + 1;
      } else if wasUnhealthy && !isUnhealthy {
        metrics.machinesUnhealthy := metrics.machinesUnhealthy - 1;
      }
    }

    /** checkProvisioningTimeout; the returned failure goes to the Machine. */
    method CheckProvisioningTimeout(status: Option<InstanceStatus>, now: int, limit: int)
      returns (failure: Option<Failure>)
      modifies this`conditions
      ensures failure == if TimedOut(old(conditions), status, now, limit)
                         then Some(TimeoutFailure(status.value, limit)) else None
      ensures failure.Some? <==>
              && (status == Some(Pending) || status == Some(Provisioning) || status == Some(Configuring))
              && ProvisionedAt(old(conditions)).Some? && now - ProvisionedAt(old(conditions)).value > limit
      ensures failure.Some? ==> failure.value.reason == "ProvisioningTimeout"
      ensures conditions == if TimedOut(old(conditions), status, now, limit)
                            then Upsert(old(conditions), TimeoutOp(limit), now) else old(conditions)
    {
      failure := None;
      if status.None? || (!status.value.Pending? && !status.value.Provisioning? && !status.value.Configuring?) {
        return;
      }
      var cs := conditions;
      for i := 0 to |cs|
        invariant conditions == cs && failure == None
        invariant ProvisionedAt(cs) == ProvisionedAt(cs[i..])
      {
        if cs[i].kind == InstanceProvisioned && cs[i].since != 0 {
          if now - cs[i].since > limit {
            SetCondition(InstanceReady, False, "ProvisioningTimeout",
                         "Instance has not reached Ready state after " + Decimal.PrintInt(limit), now);
            failure := Some(TimeoutFailure(status.value, limit));
          }
          return;
        }
      }
    }

    method SetAddresses(interfaces: seq<seq<string>>)
      modifies this`addresses
      ensures addresses == Addresses(interfaces)
    {
      addresses := [];
      for i := 0 to |interfaces|
        invariant addresses == Addresses(interfaces[..i])
      {
        assert interfaces[..i + 1][..i] == interfaces[..i];
        for j := 0 to |interfaces[i]|
          invariant addresses == Addresses(interfaces[..i]) + interfaces[i][..j]
        {
          addresses := addresses + [interfaces[i][j]];
        }
        assert interfaces[i][..|interfaces[i]|] == interfaces[i];
      }
      assert interfaces[..|interfaces|] == interfaces;
    }

    /** The number of the next attempt, read from the condition that counts them. */
    method CountAttempt() returns (attempt: int)
      ensures attempt == NextAttempt(conditions)
      ensures (forall c :: c in conditions ==> !(c.kind == FaultBlockedCreation && c.status == True)) ==> attempt == 1
      ensures forall i ::
                (&& 0 <= i < |conditions|
                 && conditions[i].kind == FaultBlockedCreation && conditions[i].status == True
                 && ScanFaultReason(conditions[i].reason) == None
                 && forall j :: 0 <= j < i ==>
                      !(conditions[j].kind == FaultBlockedCreation && conditions[j].status == True))
                ==> attempt == 2
    {
      attempt := 1;
      for i := 0 to |conditions|
        invariant attempt == 1
        invariant forall j :: 0 <= j < i ==>
                    !(conditions[j].kind == FaultBlockedCreation && conditions[j].status == True)
        invariant FirstTrueReason(conditions, FaultBlockedCreation)
                  == FirstTrueReason(conditions[i..], FaultBlockedCreation)
      {
        if conditions[i].kind == FaultBlockedCreation && conditions[i].status == True {
          var scanned := ScanFaultReason(conditions[i].reason);
          if scanned.Some? {
            attempt := scanned.value;
          }
          attempt := Decimal.Int64(attempt + 1);
          return;
        }
      }
    }

    /** The status of a blocked Create, as checkPreFlightHealth rewrites it. */
    method RecordBlock(target: string, alert: string, max: int, now: int) returns (failure: Option<Failure>)
      modifies this`conditions
      ensures forall failure0 ::
                AfterBlock(MachineStatus(old(View()), failure0), target, alert, max, now)
                == MachineStatus(View(), if failure.Some? then failure else failure0)
    {
      var cs := conditions;
      var attempt := CountAttempt();
      ghost var ops := BlockOps(attempt, max, alert);
      ApplyTwo(cs, ops[0], ops[1], now);
      SetCondition(FaultBlockedCreation, True, FaultReason(attempt),
                   "Attempt " + Decimal.PrintInt(attempt) + " of " + Decimal.PrintInt(max) + ": " + alert, now);
      SetCondition(MachineHealthy, False, "CriticalFault", alert, now);
      failure := None;
      if attempt >= max {
        failure := Some(Failure("PreFlightHealthCheckFailed",
                                "Machine " + target + " has persistent critical faults after "
                                + Decimal.PrintInt(attempt) + " attempts: " + alert));
      }
    }
  }
}
