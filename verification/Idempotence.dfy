/** Repeating an Update that sees the same answers. */
module Idempotence {
  import opened Options
  import opened Conditions
  import opened Health
  import opened Provider
  import opened History
  import opened Topology

  /** The status that every write to a type asks for within one Update. */
  function Asked(inst: Instance, replies: Replies, kind: Kind): Option<Truth> {
    if InstanceKind(kind) then
      if inst.status.Some? then Written(inst.status.value, kind) else None
    else
      var op := LastOp(HealthEffect(inst.machineId, replies).ops, kind);
      if op.Some? then Some(op.value.status) else None
  }

  lemma InstanceOpsAsk(status: InstanceStatus)
    ensures forall i :: 0 <= i < |InstanceOps(status)| ==>
              Written(status, InstanceOps(status)[i].kind) == Some(InstanceOps(status)[i].status)
  {
  }

  lemma ObservedOpsFollow(inst: Instance, replies: Replies)
    ensures Follows(ObservedOps(inst.status), kind => Asked(inst, replies, kind))
  {
    if inst.status.Some? {
      var ops := InstanceOps(inst.status.value);
      InstanceOpsKinds(inst.status.value);
      InstanceOpsAsk(inst.status.value);
      forall i | 0 <= i < |ops| ensures Asked(inst, replies, ops[i].kind) == Some(ops[i].status) {
        assert ops[i] in ops;
      }
    }
  }

  lemma HealthOpsFollow(inst: Instance, replies: Replies)
    ensures Follows(HealthEffect(inst.machineId, replies).ops, kind => Asked(inst, replies, kind))
  {
    EffectShape(inst.machineId, replies);
    var effect := HealthEffect(inst.machineId, replies);
    if effect.ops != [] {
      TwoOps(effect);
    }
  }

  lemma UpdateOpsConsistent(cs: seq<Condition>, inst: Instance, replies: Replies, now: int, limit: int)
    ensures Consistent(UpdateOps(cs, inst, replies, now, limit))
  {
    var table := kind => Asked(inst, replies, kind);
    var a, b := ObservedOps(inst.status), HealthEffect(inst.machineId, replies).ops;
    var c := if TimedOut(cs, inst.status, now, limit) then [TimeoutOp(limit)] else [];
    ObservedOpsFollow(inst, replies);
    HealthOpsFollow(inst, replies);
    FollowsAppend(a, b, table);
    FollowsAppend(a + b, c, table);
    FollowsIsConsistent(a + b + c, table);
  }

  /** Both clock readings lie on the same side of the timeout, or the timeout
      cannot apply. */
  predicate SameSide(cs: seq<Condition>, inst: Instance, now: int, later: int, limit: int) {
    TimedOut(cs, inst.status, now, limit) <==> TimedOut(cs, inst.status, later, limit)
  }

  /** A second Update with the same answers changes nothing at all in the
      status of the Machine - no condition, transition time, address, health
      label or failure - exactly when the clock has not crossed the timeout. */
  lemma UpdateSettles(s: MachineStatus, inst: Instance, replies: Replies, now: int, later: int, limit: int)
    ensures var once := AfterUpdate(s, inst, replies, now, limit);
            AfterUpdate(once, inst, replies, later, limit) == once
            <==> SameSide(s.provider.conditions, inst, now, later, limit)
  {
    var cs := s.provider.conditions;
    var once := AfterUpdate(s, inst, replies, now, limit);
    var ops := UpdateOps(cs, inst, replies, now, limit);
    UpdateOpsKinds(cs, inst, replies, now, limit);
    ProvisionedAtStable(cs, ops, now);
    if SameSide(cs, inst, now, later, limit) {
      UpdateOpsConsistent(cs, inst, replies, now, limit);
      OpsSettle(cs, ops, now, later);
      assert UpdateOps(once.provider.conditions, inst, replies, later, limit) == ops;
    } else {
      ReadyReason(cs, inst, replies, now, limit);
      ReadyReason(once.provider.conditions, inst, replies, later, limit);
    }
  }

  /** The reason left at InstanceReady tells whether an early Update timed out. */
  lemma ReadyReason(cs: seq<Condition>, inst: Instance, replies: Replies, now: int, limit: int)
    requires Early(inst.status)
    ensures var c := Find(ApplyOps(cs, UpdateOps(cs, inst, replies, now, limit), now), InstanceReady);
            c.Some? && (c.value.reason == "ProvisioningTimeout" <==> TimedOut(cs, inst.status, now, limit))
  {
    var a, b := ObservedOps(inst.status), HealthEffect(inst.machineId, replies).ops;
    var c := if TimedOut(cs, inst.status, now, limit) then [TimeoutOp(limit)] else [];
    HealthOpsKinds(inst.machineId, replies);
    LastOpNone(b, InstanceReady);
    LastOpAppend(a, b, InstanceReady);
    LastOpAppend(a + b, c, InstanceReady);
    LastOpShort(a, InstanceReady);
    LastOpShort(c, InstanceReady);
    FindApplyOps(cs, a + b + c, now, InstanceReady);
  }

  /** The MachineHealthy status after an Update is the health source's verdict, if it gave one. */
  lemma UpdateHealthStatus(cs: seq<Condition>, inst: Instance, replies: Replies, now: int, limit: int, status: Truth)
    ensures var op := LastOp(HealthEffect(inst.machineId, replies).ops, MachineHealthy);
            Has(ApplyOps(cs, UpdateOps(cs, inst, replies, now, limit), now), MachineHealthy, status)
            <==> if op.Some? then op.value.status == status else Has(cs, MachineHealthy, status)
  {
    var a, b := ObservedOps(inst.status), HealthEffect(inst.machineId, replies).ops;
    var c := if TimedOut(cs, inst.status, now, limit) then [TimeoutOp(limit)] else [];
    if inst.status.Some? {
      InstanceOpsKinds(inst.status.value);
    }
    LastOpNone(a, MachineHealthy);
    LastOpNone(c, MachineHealthy);
    LastOpAppend(a, b, MachineHealthy);
    LastOpAppend(a + b, c, MachineHealthy);
    FindApplyOps(cs, a + b + c, now, MachineHealthy);
  }

  /** An Update that changes MachineHealthy from False to not False through the
      report path is the one that asks for the k8s-mhc report to be deleted. */
  predicate CleansUp(before: MachineStatus, inst: Instance, replies: Replies, now: int, limit: int) {
    && UsesReports(inst, replies)
    && IsFalse(before.provider.conditions, MachineHealthy)
    && !IsFalse(AfterUpdate(before, inst, replies, now, limit).provider.conditions, MachineHealthy)
  }

  /** The repeated Update also leaves the gauge alone, deletes no report and
      writes no label, on either side of the timeout. */
  lemma UpdateSettlesOutside(s: MachineStatus, labels: Labels, instanceType: string,
                             inst: Instance, replies: Replies, now: int, later: int, limit: int)
    ensures var once := AfterUpdate(s, inst, replies, now, limit);
            var twice := AfterUpdate(once, inst, replies, later, limit);
            && GaugeStep(once.provider.conditions, twice.provider.conditions) == 0
            && !CleansUp(once, inst, replies, later, limit)
    ensures var once := WithTopology(labels, inst, instanceType);
            WithTopology(once, inst, instanceType) == once
  {
    var once := AfterUpdate(s, inst, replies, now, limit);
    UpdateHealthStatus(s.provider.conditions, inst, replies, now, limit, False);
    UpdateHealthStatus(once.provider.conditions, inst, replies, later, limit, False);
    LabelsSettle(labels, inst, instanceType);
  }
}
