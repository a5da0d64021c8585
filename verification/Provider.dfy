/** The provider status of a Machine, and the three ways the actuator rewrites
    it: a recorded Create, an Update, and a Create blocked by the pre-flight check. */
module Provider {
  import opened Options
  import opened Conditions
  import opened Health
  import Decimal

  datatype InstanceStatus =
    | Pending
    | Provisioning
    | Configuring
    | Ready
    | Updating
    | Rebooting
    | Terminating
    | Error
    | Other(text: string)

  datatype NvLink = NvLink(partition: Option<string>, domain: Option<string>)

  /** The part of a NICo instance that the actuator reads. */
  datatype Instance = Instance(
    id: string,
    status: Option<InstanceStatus>,
    machineId: Option<string>,
    siteId: Option<string>,
    nvLinks: seq<NvLink>,
    infiniBands: seq<Option<string>>,
    interfaces: seq<seq<string>>)

  /** A value of NicoMachineProviderStatus. */
  datatype StatusView = StatusView(
    instanceId: Option<string>,
    machineId: Option<string>,
    instanceState: Option<InstanceStatus>,
    addresses: seq<string>,
    conditions: seq<Condition>,
    healthLabels: map<string, string>)

  const EMPTY_STATUS := StatusView(None, None, None, [], [], map[])

  /** ErrorReason and ErrorMessage. */
  datatype Failure = Failure(reason: string, message: string)

  /** The status subresource of a Machine: what one status write replaces as a whole. */
  datatype MachineStatus = MachineStatus(provider: StatusView, failure: Option<Failure>)

  function StatusText(status: InstanceStatus): string {
    match status
    case Pending => "Pending"
    case Provisioning => "Provisioning"
    case Configuring => "Configuring"
    case Ready => "Ready"
    case Updating => "Updating"
    case Rebooting => "Rebooting"
    case Terminating => "Terminating"
    case Error => "Error"
    case Other(text) => text
  }

  // ---------- specification of an Update ----------

  /** The conditions that each observed instance status writes, in order. */
  function InstanceOps(status: InstanceStatus): seq<Op> {
    match status
    case Pending =>
      [Op(InstanceAllocating, True, "Pending", "Instance creation request sent, awaiting allocation"),
       Op(InstanceReady, False, "Pending", "Instance is pending allocation")]
    case Provisioning =>
      [Op(InstanceAllocating, False, "Allocated", "Instance has been allocated"),
       Op(InstanceProvisioning, True, "Provisioning", "NICo is provisioning the machine"),
       Op(InstanceReady, False, "Provisioning", "Instance is being provisioned")]
    case Configuring =>
      [Op(InstanceProvisioning, False, "Provisioned", "Machine has been provisioned"),
       Op(InstanceBootstrapping, True, "Configuring", "OS installed, configuration in progress"),
       Op(InstanceReady, False, "Configuring", "Instance is being configured")]
    case Ready =>
      [Op(InstanceBootstrapping, False, "Complete", "Bootstrap completed"),
       Op(InstanceReady, True, "InstanceRunning", "Instance is fully operational")]
    case Updating =>
      [Op(InstanceReady, False, "Updating", "Instance is being updated")]
    case Rebooting =>
      [Op(InstanceReady, False, "Rebooting", "Instance is rebooting")]
    case Terminating =>
      [Op(InstanceTerminating, True, "Terminating", "Instance deletion in progress"),
       Op(InstanceReady, False, "Terminating", "Instance is terminating")]
    case Error =>
      [Op(InstanceError, True, "Error", "Instance is in a terminal error state"),
       Op(InstanceReady, False, "Error", "Instance encountered an error")]
    case Other(text) =>
      [Op(InstanceReady, False, "Unknown", "Instance is in unknown state: " + text)]
  }

  function ObservedOps(status: Option<InstanceStatus>): seq<Op> {
    if status.Some? then InstanceOps(status.value) else []
  }

  predicate Early(status: Option<InstanceStatus>) {
    status.Some? && (status.value.Pending? || status.value.Provisioning? || status.value.Configuring?)
  }

  /** Transition time of the first InstanceProvisioned condition that has one. */
  function ProvisionedAt(cs: seq<Condition>): Option<int> {
    if cs == [] then None
    else if cs[0].kind == InstanceProvisioned && cs[0].since != 0 then Some(cs[0].since)
    else ProvisionedAt(cs[1..])
  }

  predicate TimedOut(cs: seq<Condition>, status: Option<InstanceStatus>, now: int, limit: int) {
    Early(status) && ProvisionedAt(cs).Some? && now - ProvisionedAt(cs).value > limit
  }

  function TimeoutOp(limit: int): Op {
    Op(InstanceReady, False, "ProvisioningTimeout",
       "Instance has not reached Ready state after " + Decimal.PrintInt(limit))
  }

  function TimeoutFailure(status: InstanceStatus, limit: int): Failure {
    Failure("ProvisioningTimeout",
            "Instance stuck in " + StatusText(status) + " state for more than " + Decimal.PrintInt(limit))
  }

  /** All condition writes of one Update. */
  function UpdateOps(cs: seq<Condition>, inst: Instance, replies: Replies, now: int, limit: int): seq<Op> {
    ObservedOps(inst.status)
    + HealthEffect(inst.machineId, replies).ops
    + (if TimedOut(cs, inst.status, now, limit) then [TimeoutOp(limit)] else [])
  }

  function Addresses(interfaces: seq<seq<string>>): seq<string> {
    if interfaces == [] then [] else Addresses(interfaces[..|interfaces| - 1]) + interfaces[|interfaces| - 1]
  }

  function AfterUpdate(old_: MachineStatus, inst: Instance, replies: Replies, now: int, limit: int): MachineStatus {
    var s := old_.provider;
    var effect := HealthEffect(inst.machineId, replies);
    MachineStatus(
      StatusView(
        s.instanceId,
        if inst.machineId.Some? then inst.machineId else s.machineId,
        if inst.status.Some? then inst.status else s.instanceState,
        Addresses(inst.interfaces),
        ApplyOps(s.conditions, UpdateOps(s.conditions, inst, replies, now, limit), now),
        if effect.labels.Some? then effect.labels.value else s.healthLabels),
      if TimedOut(s.conditions, inst.status, now, limit) then Some(TimeoutFailure(inst.status.value, limit))
      else old_.failure)
  }

  // ---------- specification of a Create ----------

  /** Create starts from a fresh status: nothing of the old one survives. */
  function AfterCreate(inst: Instance, now: int): StatusView {
    StatusView(
      Some(inst.id), inst.machineId, inst.status, Addresses(inst.interfaces),
      [Condition(InstanceProvisioned, True, "InstanceCreated", "Instance " + inst.id + " created successfully", now)],
      map[])
  }

  const FAULT_PREFIX := "FaultBlocked_"

  function FaultReason(attempt: int): string {
    FAULT_PREFIX + Decimal.PrintInt(attempt)
  }

  /** `Sscanf(reason, "FaultBlocked_%d")`. */
  function ScanFaultReason(reason: string): Option<int> {
    if FAULT_PREFIX <= reason then Decimal.Scan(reason[|FAULT_PREFIX|..]) else None
  }

  /** Reason of the first True condition of a type. */
  function FirstTrueReason(cs: seq<Condition>, kind: Kind): Option<string> {
    if cs == [] then None
    else if cs[0].kind == kind && cs[0].status == True then Some(cs[0].reason)
    else FirstTrueReason(cs[1..], kind)
  }

  function NextAttempt(cs: seq<Condition>): int {
    match FirstTrueReason(cs, FaultBlockedCreation)
    case None => 1
    case Some(reason) =>
      var scanned := ScanFaultReason(reason);
      Decimal.Int64(1 + if scanned.Some? then scanned.value else 1)
  }

  function BlockOps(attempt: int, max: int, alert: string): seq<Op> {
    [Op(FaultBlockedCreation, True, FaultReason(attempt),
        "Attempt " + Decimal.PrintInt(attempt) + " of " + Decimal.PrintInt(max) + ": " + alert),
     Op(MachineHealthy, False, "CriticalFault", alert)]
  }

  function AfterBlock(old_: MachineStatus, target: string, alert: string, max: int, now: int): MachineStatus {
    var cs := old_.provider.conditions;
    var attempt := NextAttempt(cs);
    MachineStatus(
      old_.provider.(conditions := ApplyOps(cs, BlockOps(attempt, max, alert), now)),
      if attempt >= max then
        Some(Failure("PreFlightHealthCheckFailed",
                     "Machine " + target + " has persistent critical faults after " + Decimal.PrintInt(attempt)
                     + " attempts: " + alert))
      else old_.failure)
  }

  // ---------- the two statuses, field by field ----------

  /** An Update keeps the recorded instance and takes the rest from the cloud's answer. */
  lemma UpdateFields(s: MachineStatus, inst: Instance, replies: Replies, now: int, limit: int)
    ensures var s' := AfterUpdate(s, inst, replies, now, limit).provider;
            && s'.instanceId == s.provider.instanceId
            && s'.machineId == (if inst.machineId == None then s.provider.machineId else inst.machineId)
            && s'.instanceState == (if inst.status == None then s.provider.instanceState else inst.status)
            && s'.addresses == Addresses(inst.interfaces)
            && (inst.machineId == None || inst.machineId == Some("") ==> s'.healthLabels == s.provider.healthLabels)
  {
  }

  /** Every observed status ends by writing InstanceReady, with this reason. */
  lemma ReadyReasons(status: InstanceStatus)
    ensures var ops := InstanceOps(status);
            && ops != [] && ops[|ops| - 1].kind == InstanceReady
            && ops[|ops| - 1].reason == (match status
                                         case Pending => "Pending"
                                         case Provisioning => "Provisioning"
                                         case Configuring => "Configuring"
                                         case Ready => "InstanceRunning"
                                         case Updating => "Updating"
                                         case Rebooting => "Rebooting"
                                         case Terminating => "Terminating"
                                         case Error => "Error"
                                         case Other(_) => "Unknown")
  {
  }

  /** Addresses are listed interface by interface, in order. */
  lemma {:induction false} AddressesInOrder(first: seq<seq<string>>, rest: seq<seq<string>>, interface_: seq<string>)
    ensures Addresses(first + rest) == Addresses(first) + Addresses(rest) && Addresses([interface_]) == interface_
  {
    assert [interface_][..0] == [];
    if rest == [] {
      assert first + rest == first;
    } else {
      var n := |rest| - 1;
      assert (first + rest)[..|first| + n] == first + rest[..n];
      AddressesInOrder(first, rest[..n], interface_);
    }
  }

  // ---------- facts shared by the proofs ----------

  /** The time the timeout counts from, by position. */
  lemma {:induction false} ProvisionedByPosition(cs: seq<Condition>, t: int)
    ensures ProvisionedAt(cs) == Some(t) <==>
            exists i :: 0 <= i < |cs| && cs[i].kind == InstanceProvisioned && cs[i].since == t && t != 0
                        && forall j :: 0 <= j < i ==> cs[j].kind != InstanceProvisioned || cs[j].since == 0
  {
    if cs != [] {
      var here := cs[0].kind == InstanceProvisioned && cs[0].since != 0;
      ProvisionedByPosition(cs[1..], t);
      if ProvisionedAt(cs) == Some(t) {
        if here {
          assert cs[0].since == t;
        } else {
          var i :| 0 <= i < |cs[1..]| && cs[1..][i].kind == InstanceProvisioned && cs[1..][i].since == t && t != 0
                   && forall j :: 0 <= j < i ==> cs[1..][j].kind != InstanceProvisioned || cs[1..][j].since == 0;
          assert cs[i + 1] == cs[1..][i];
          assert forall j :: 0 < j < i + 1 ==> cs[j] == cs[1..][j - 1];
        }
      }
    }
  }

  /** The timeout, with its statuses and its start written out. */
  lemma TimedOutIff(cs: seq<Condition>, status: Option<InstanceStatus>, now: int, limit: int)
    ensures TimedOut(cs, status, now, limit) <==>
            && (status == Some(Pending) || status == Some(Provisioning) || status == Some(Configuring))
            && exists i :: 0 <= i < |cs| && cs[i].kind == InstanceProvisioned && cs[i].since != 0
                           && now - cs[i].since > limit
                           && forall j :: 0 <= j < i ==> cs[j].kind != InstanceProvisioned || cs[j].since == 0
  {
    if ProvisionedAt(cs).Some? {
      ProvisionedByPosition(cs, ProvisionedAt(cs).value);
    }
    if i :| 0 <= i < |cs| && cs[i].kind == InstanceProvisioned && cs[i].since != 0
            && forall j :: 0 <= j < i ==> cs[j].kind != InstanceProvisioned || cs[j].since == 0 {
      ProvisionedByPosition(cs, cs[i].since);
    }
  }

  lemma {:induction false} ProvisionedAtUpsert(cs: seq<Condition>, op: Op, now: int)
    requires op.kind != InstanceProvisioned
    ensures ProvisionedAt(Upsert(cs, op, now)) == ProvisionedAt(cs)
  {
    var cs' := Upsert(cs, op, now);
    if cs == [] {
      assert cs'[1..] == [];
    } else if cs[0].kind == op.kind {
      assert cs'[1..] == cs[1..];
    } else {
      assert cs'[1..] == Upsert(cs[1..], op, now);
      ProvisionedAtUpsert(cs[1..], op, now);
    }
  }

  lemma {:induction false} ProvisionedAtStable(cs: seq<Condition>, ops: seq<Op>, now: int)
    requires forall op :: op in ops ==> op.kind != InstanceProvisioned
    ensures ProvisionedAt(ApplyOps(cs, ops, now)) == ProvisionedAt(cs)
  {
    if ops != [] {
      ProvisionedAtStable(cs, ops[..|ops| - 1], now);
      ProvisionedAtUpsert(ApplyOps(cs, ops[..|ops| - 1], now), ops[|ops| - 1], now);
    }
  }

  /** The types that follow the instance's own status. */
  predicate InstanceKind(kind: Kind) {
    kind.InstanceAllocating? || kind.InstanceProvisioning? || kind.InstanceBootstrapping?
    || kind.InstanceReady? || kind.InstanceTerminating? || kind.InstanceError?
  }

  lemma InstanceOpsKinds(status: InstanceStatus)
    ensures forall op :: op in InstanceOps(status) ==> InstanceKind(op.kind)
  {
  }

  lemma HealthOpsKinds(machineId: Option<string>, replies: Replies)
    ensures forall op :: op in HealthEffect(machineId, replies).ops ==>
              op.kind.MachineHealthy? || op.kind.NicoFaultRemediation?
  {
    EffectShape(machineId, replies);
  }

  /** An Update writes only these types, so it never moves InstanceProvisioned. */
  lemma UpdateOpsKinds(cs: seq<Condition>, inst: Instance, replies: Replies, now: int, limit: int)
    ensures forall op :: op in UpdateOps(cs, inst, replies, now, limit) ==>
              InstanceKind(op.kind) || op.kind.MachineHealthy? || op.kind.NicoFaultRemediation?
  {
    HealthOpsKinds(inst.machineId, replies);
    if inst.status.Some? {
      InstanceOpsKinds(inst.status.value);
    }
  }

  /** Calls that name only other types leave a type alone. */
  lemma {:induction false} LastOpNone(ops: seq<Op>, kind: Kind)
    requires forall op :: op in ops ==> op.kind != kind
    ensures LastOp(ops, kind) == None
  {
    if ops != [] {
      LastOpNone(ops[..|ops| - 1], kind);
    }
  }

  // ---------- gauge and report clean-up ----------

  predicate IsFalse(cs: seq<Condition>, kind: Kind) {
    Has(cs, kind, False)
  }

  function Weight(unhealthy: bool): int {
    if unhealthy then 1 else 0
  }

  /** Change of the gauge between two condition lists. */
  function GaugeStep(before: seq<Condition>, after: seq<Condition>): int {
    Weight(IsFalse(after, MachineHealthy)) - Weight(IsFalse(before, MachineHealthy))
  }

  /** Whether an Update takes the report path. */
  predicate UsesReports(inst: Instance, replies: Replies) {
    inst.machineId.Some? && inst.machineId.value != "" && replies.reports.Some?
  }
}
