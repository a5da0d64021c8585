/** The controller itself: MachineReconciler and the actuator it calls, as they
    edit the object in memory and call the world. The contracts name the point
    of the protocol at which each method starts and the one it ends at, the
    calls it makes in between, and the status write among them. */
module Reconciler {
  import opened Options
  import opened Conditions
  import opened Health
  import opened Provider
  import opened History
  import opened StatusObject
  import opened ProviderSpec
  import opened Topology
  import opened PreFlight
  import opened Protocol
  import opened Environment
  import opened Idempotence
  import Script
  import ProviderId
  import Uuid

  class Actuator {
    const world: World
    const metrics: Metrics
    const cleanup: ReportCleanup
    const org: string
    const alt: ProviderId.AltUuid

    constructor (world: World, metrics: Metrics, cleanup: ReportCleanup, org: string, alt: ProviderId.AltUuid)
      ensures this.world == world && this.metrics == metrics && this.cleanup == cleanup
    {
      this.world, this.metrics, this.cleanup, this.org, this.alt := world, metrics, cleanup, org, alt;
    }

    /** Exists; `None` is an error. */
    method Exists(obj: MachineObject) returns (exists_: Option<bool>, ghost steps: seq<Action>)
      requires world.Valid() && world.s.pc == AfterRead(obj.value)
      requires obj.value.current && !obj.value.deleting
      modifies world
      ensures world.Valid() && Went(old(world.log), world.log, steps, []) && Script.Exists(obj.value, steps, exists_)
      ensures obj.value.Recorded().Some? && (obj.value.spec.None? || !world.client) ==> exists_ == None
      ensures obj.value.Recorded().None? ==> steps == [] && exists_ == Some(false)
      ensures obj.value.Recorded().Some? ==>
                && |steps| == 1 && steps[0].AskExists?
                && (exists_ == Some(true) <==> steps[0].reply.Found?)
                && (exists_ == Some(false) <==> steps[0].reply.NoData? || steps[0].reply == GetFailed(Some(404)))
      ensures world.s.pc == match exists_
                            case None => Idle(Returned(RETRY))
                            case Some(true) => CallingGet(obj.value)
                            case Some(false) => Gating(obj.value)
    {
      steps := [];
      if obj.value.status.provider.instanceId.None? {
        return Some(false), steps;
      }
      var ok := obj.value.spec.Some?;
      if ok {
        ok := world.GetClient();
      }
      if !ok {
        world.FailLookup();
        return None, [AskExists(GetFailed(None))];
      }
      var reply := world.GetInstance(obj.value);
      steps := [AskExists(reply)];
      match reply {
        case Found(_) => exists_ := Some(true);
        case NoData => exists_ := Some(false);
        case GetFailed(code) =>
          if code == Some(404) {
            exists_ := Some(false);
          } else {
            exists_ := None;
          }
      }
    }

    /** checkPreFlightHealth, up to its decision. */
    method CheckPreFlightHealth(target: string, replies: Replies, runs: Option<seq<ValidationRun>>)
      returns (alert: Option<string>)
      ensures alert == GateAlert(target, replies, runs)
    {
      alert := CheckCriticalFaults(target, replies);
      if alert.None? {
        alert := CheckMachineValidation(target, runs);
      }
    }

    /** The status write of a blocked Create. */
    method WriteBlock(obj: MachineObject, target: string, alert: string, now: int) returns (ghost fate: Fate)
      requires world.Valid() && world.s.pc == WritingBlock(obj.value, Blocked(target, alert, now))
      modifies world`s, world`log, obj
      ensures world.Valid() && Wrote(old(world.log), world.log, [WriteStatus(fate)],
                                     Some(Work(old(obj.value.status), Blocked(target, alert, now), !fate.Failed?)))
      ensures world.s.pc == Idle(Returned(RETRY))
    {
      var before := obj.value.status;
      var ps := new ProviderStatus.Decode(before.provider);
      var failure := ps.RecordBlock(target, alert, world.s.cfg.maxBlocks, now);
      obj.value := obj.value.(status := MachineStatus(ps.View(), if failure.Some? then failure else before.failure));
      assert obj.value.status == AfterBlock(before, target, alert, world.s.cfg.maxBlocks, now);
      var _, how := world.UpdateStatus(obj);
      fate := how;
    }

    /** The provider status of a new instance, built from scratch. */
    method FreshStatus(inst: Instance, now: int) returns (view: StatusView)
      ensures view == AfterCreate(inst, now)
      ensures view.instanceId == Some(inst.id) && view.machineId == inst.machineId && view.instanceState == inst.status
      ensures view.addresses == Addresses(inst.interfaces) && view.healthLabels == map[] && |view.conditions| == 1
      ensures var c := view.conditions[0]; c.kind == InstanceProvisioned && c.status == True && c.since == now
    {
      var ps := new ProviderStatus.Decode(EMPTY_STATUS);
      ps.instanceId := Some(inst.id);
      if inst.machineId.Some? {
        ps.machineId := inst.machineId;
      }
      if inst.status.Some? {
        ps.instanceState := inst.status;
      }
      ps.SetAddresses(inst.interfaces);
      ps.SetCondition(InstanceProvisioned, True, "InstanceCreated",
                      "Instance " + inst.id + " created successfully", now);
      view := ps.View();
    }

    /** Create up to the gate, which it passes only with spec, client and tenant. */
    method PrepareCreate(obj: MachineObject) returns (ok: bool)
      requires world.Valid()
      modifies world`client, world`targeting
      ensures ok == Script.Admits(obj.value.spec, world.client, world.targeting)
    {
      ok := obj.value.spec.Some? && Validate(obj.value.spec.value).None?;
      if ok {
        ok := world.GetClient();
      }
      if ok && obj.value.spec.value.machineId != "" {
        ok := world.GetTargeting();
      }
    }

    /** Create. */
    method Create(obj: MachineObject, name: string)
      returns (error: Option<Script.ActuatorError>, ghost steps: seq<Action>, ghost work: Option<Work>)
      requires world.Valid() && world.s.pc == Gating(obj.value)
      modifies world, obj
      ensures world.Valid() && Wrote(old(world.log), world.log, steps, work)
      ensures Script.Create(old(obj.value), org, alt, steps, error, work)
      ensures steps[0].admitted <==> Script.Admits(old(obj.value).spec, world.client, world.targeting)
      ensures steps[0].admitted <==>
              && old(obj.value).spec.Some? && Validate(old(obj.value).spec.value) == None && world.client
              && (old(obj.value).spec.value.machineId == "" || world.targeting)
      ensures world.s.pc == Idle(Returned(Script.ResultOf(error, Result(10, false))))
    {
      var now: int := *;
      var replies: Replies := *;
      var runs: Option<seq<ValidationRun>> := *;
      var ok := PrepareCreate(obj);
      ghost var gate := Gate(ok, replies, runs, now);
      if !ok {
        world.PassGate(obj.value, false, replies, runs, now);
        WroteNothing(old(world.log), world.log, [gate]);
        return Some(Script.TRANSIENT), [gate], None;
      }
      error, steps, work := CreateAdmitted(obj, obj.value.spec.value, name, replies, runs, now);
    }

    /** Create from the pre-flight check on. */
    method CreateAdmitted(obj: MachineObject, spec: Spec, name: string,
                          replies: Replies, runs: Option<seq<ValidationRun>>, now: int)
      returns (error: Option<Script.ActuatorError>, ghost steps: seq<Action>, ghost work: Option<Work>)
      requires world.Valid() && world.s.pc == Gating(obj.value)
      requires obj.value.spec == Some(spec) && Script.Admits(obj.value.spec, world.client, world.targeting)
      modifies world`s, world`log, obj
      ensures steps != [] && steps[0] == Gate(true, replies, runs, now)
      ensures world.Valid() && Wrote(old(world.log), world.log, steps, work)
      ensures Script.CreateAdmitted(old(obj.value), spec, org, alt, steps, error, work)
      ensures world.s.pc == Idle(Returned(Script.ResultOf(error, Result(10, false))))
    {
      ghost var gate := Gate(true, replies, runs, now);
      var alert := None;
      if spec.machineId != "" && !spec.allowUnhealthyMachine {
        alert := CheckPreFlightHealth(spec.machineId, replies, runs);
      }
      world.PassGate(obj.value, true, replies, runs, now);
      ghost var passed, rest := world.log, [];
      error, rest, work := BlockOrLaunch(obj, spec, name, alert, now);
      WroteLater(old(world.log), passed, world.log, [gate], rest, work);
      steps := [gate] + rest;
      assert steps[1..] == rest;
    }

    /** Create after the pre-flight check. */
    method BlockOrLaunch(obj: MachineObject, spec: Spec, name: string, alert: Option<string>, now: int)
      returns (error: Option<Script.ActuatorError>, ghost steps: seq<Action>, ghost work: Option<Work>)
      requires world.Valid() && obj.value.spec == Some(spec)
      requires world.s.pc == if alert.None? then CallingCreate(obj.value)
                             else WritingBlock(obj.value, Blocked(spec.machineId, alert.value, now))
      modifies world`s, world`log, obj
      ensures world.Valid() && Wrote(old(world.log), world.log, steps, work)
      ensures Script.AfterGate(old(obj.value), spec, org, alt, alert, now, steps, error, work)
      ensures world.s.pc == Idle(Returned(Script.ResultOf(error, Result(10, false))))
    {
      if alert.Some? {
        ghost var from := obj.value.status;
        ghost var fate := WriteBlock(obj, spec.machineId, alert.value, now);
        return Some(Script.TRANSIENT), [WriteStatus(fate)],
               Some(Work(from, Blocked(spec.machineId, alert.value, now), !fate.Failed?));
      }
      error, steps, work := Launch(obj, spec, name, now);
    }

    /** CreateInstance and what follows. */
    method Launch(obj: MachineObject, spec: Spec, name: string, now: int)
      returns (error: Option<Script.ActuatorError>, ghost steps: seq<Action>, ghost work: Option<Work>)
      requires world.Valid() && world.s.pc == CallingCreate(obj.value) && obj.value.spec == Some(spec)
      modifies world`s, world`log, obj
      ensures world.Valid() && Wrote(old(world.log), world.log, steps, work)
      ensures Script.Launch(old(obj.value), spec, org, alt, steps, error, work)
      ensures world.s.pc == Idle(Returned(Script.ResultOf(error, Result(10, false))))
    {
      var req := BuildInstanceRequest(name, spec);
      var reply := world.CreateInstance(obj.value, req, now);
      steps, work := [CallCreate(reply, now)], None;
      ghost var called := world.log;
      WroteNothing(old(world.log), called, steps);
      match reply {
        case CreateFailed(code, _) => error := Some(Script.ActuatorError(code == Some(400)));
        case CreateEmpty(_) => error := Some(Script.TRANSIENT);
        case CreatedInstance(inst) =>
          ghost var rest;
          error, rest, work := RecordInstance(obj, spec, inst, now);
          WroteLater(old(world.log), called, world.log, steps, rest, work);
          steps := steps + rest;
      }
    }

    /** Create from the status write on. */
    method RecordInstance(obj: MachineObject, spec: Spec, inst: Instance, now: int)
      returns (error: Option<Script.ActuatorError>, ghost steps: seq<Action>, ghost work: Option<Work>)
      requires world.Valid() && world.s.pc == WritingCreated(obj.value, inst, Created(inst, now))
      requires obj.value.spec == Some(spec)
      modifies world`s, world`log, obj
      ensures world.Valid() && Wrote(old(world.log), world.log, steps, work)
      ensures Script.Record(spec, inst, org, alt, steps, error)
      ensures work == Some(Work(old(obj.value.status), Created(inst, now), !steps[0].fate.Failed?))
      ensures world.s.pc == Idle(Returned(Script.ResultOf(error, Result(10, false))))
    {
      ghost var from := obj.value.status;
      var ok, fate := StoreCreated(obj, inst, now);
      steps, work := [WriteStatus(fate)], Some(Work(from, Created(inst, now), !fate.Failed?));
      if !ok {
        return Some(Script.TRANSIENT), steps, work;
      }
      ghost var stored, rest := world.log, [];
      error, rest := RecordProviderId(obj, spec, inst);
      WroteEarlier(old(world.log), stored, world.log, steps, rest, work);
      steps := steps + rest;
    }

    /** The status write of a new instance. */
    method StoreCreated(obj: MachineObject, inst: Instance, now: int) returns (ok: bool, ghost fate: Fate)
      requires world.Valid() && world.s.pc == WritingCreated(obj.value, inst, Created(inst, now))
      modifies world`s, world`log, obj
      ensures world.Valid() && Wrote(old(world.log), world.log, [WriteStatus(fate)],
                                     Some(Work(old(obj.value.status), Created(inst, now), !fate.Failed?)))
      ensures ok == fate.Applied? && obj.value.spec == old(obj.value.spec)
      ensures world.s.pc == if ok then WritingProviderId(obj.value, inst) else Idle(Returned(RETRY))
    {
      var view := FreshStatus(inst, now);
      obj.value := obj.value.(status := obj.value.status.(provider := view));
      ok, fate := world.UpdateStatus(obj);
    }

    /** Create from the provider ID on. */
    method RecordProviderId(obj: MachineObject, spec: Spec, inst: Instance)
      returns (error: Option<Script.ActuatorError>, ghost steps: seq<Action>)
      requires world.Valid() && world.s.pc == WritingProviderId(obj.value, inst) && obj.value.spec == Some(spec)
      modifies world`s, world`log, obj
      ensures world.Valid() && Went(old(world.log), world.log, steps, [])
      ensures Script.RecordProviderId(spec, inst, org, alt, steps, error)
      ensures steps[0].WriteProviderId?
      ensures match Uuid.Parse(inst.id, alt)
              case None => steps[0].fate.Failed?
              case Some(uuid) =>
                steps[0].text == "nico://" + org + "/" + spec.tenantId + "/" + spec.siteId + "/" + Uuid.Print(uuid)
      ensures world.s.pc == Idle(Returned(Script.ResultOf(error, Result(10, false))))
    {
      var uuid := Uuid.Parse(inst.id, alt);
      if uuid.None? {
        world.FailProviderId(alt);
        return Some(Script.TRANSIENT), [WriteProviderId("", Failed)];
      }
      var text := ProviderId.Print(ProviderId.ProviderId(org, spec.tenantId, spec.siteId, uuid.value));
      obj.value := obj.value.(providerId := Some(text));
      var ok, fate := world.Update(obj);
      steps := [WriteProviderId(text, fate)];
      if !ok {
        return Some(Script.TRANSIENT), steps;
      }
      ghost var stored, rest := world.log, [];
      error, rest := Deploy(obj, spec, inst);
      WentOn(old(world.log), stored, world.log, steps, rest, [], []);
      steps := steps + rest;
    }

    /** The end of Create: DPU services, if the spec has any. */
    method Deploy(obj: MachineObject, spec: Spec, inst: Instance)
      returns (error: Option<Script.ActuatorError>, ghost steps: seq<Action>)
      requires world.Valid() && obj.value.spec == Some(spec)
      requires world.s.pc == if spec.dpuServices != [] then DeployingDpu(obj.value, inst)
                            else Idle(Returned(Result(10, false)))
      modifies world`s, world`log
      ensures world.Valid() && Went(old(world.log), world.log, steps, [])
      ensures Script.Deploy(spec, steps, error)
      ensures steps == [] <==> spec.dpuServices == []
      ensures world.s.pc == Idle(Returned(Script.ResultOf(error, Result(10, false))))
    {
      error, steps := None, [];
      if spec.dpuServices != [] {
        var ok := world.DeployServices(obj.value, inst);
        steps := [DeployDpu(ok)];
        if !ok {
          error := Some(Script.TRANSIENT);
        }
      }
    }

    /** The status part of Update, on the decoded status: everything between the
        label write and the status write. */
    method RefreshStatus(ps: ProviderStatus, before: MachineStatus, inst: Instance, replies: Replies,
                         now: int, limit: int)
      returns (after: MachineStatus)
      requires ps.View() == ObservedStatus(before.provider, inst, now)
      modifies ps, metrics, cleanup
      ensures after == AfterUpdate(before, inst, replies, now, limit)
      ensures metrics.machinesUnhealthy
              == old(metrics.machinesUnhealthy) + GaugeStep(before.provider.conditions, after.provider.conditions)
      ensures |cleanup.deleted| == |old(cleanup.deleted)| + if CleansUp(before, inst, replies, now, limit) then 1 else 0
    {
      ghost var observed := ps.View();
      var failure := RefreshConditions(ps, inst, replies, now, limit);
      ps.SetAddresses(inst.interfaces);
      after := MachineStatus(ps.View(), if failure.Some? then failure else before.failure);
      RefreshResult(before, observed, after, inst, replies, now, limit);
      RefreshAccounting(before, inst, replies, now, limit);
    }

    /** Its condition part: health, then the timeout. */
    method RefreshConditions(ps: ProviderStatus, inst: Instance, replies: Replies, now: int, limit: int)
      returns (failure: Option<Failure>)
      modifies ps`conditions, ps`healthLabels, metrics, cleanup
      ensures var effect := HealthEffect(inst.machineId, replies);
              var checked := ApplyOps(old(ps.conditions), effect.ops, now);
              var late := TimedOut(checked, inst.status, now, limit);
              && ps.conditions == (if late then Upsert(checked, TimeoutOp(limit), now) else checked)
              && ps.healthLabels == (if effect.labels.Some? then effect.labels.value else old(ps.healthLabels))
              && failure == (if late then Some(TimeoutFailure(inst.status.value, limit)) else None)
              && metrics.machinesUnhealthy == old(metrics.machinesUnhealthy) + GaugeStep(old(ps.conditions), checked)
              && |cleanup.deleted| == |old(cleanup.deleted)|
                 + if UsesReports(inst, replies) && IsFalse(old(ps.conditions), MachineHealthy)
                      && !IsFalse(checked, MachineHealthy) then 1 else 0
    {
      ps.UpdateMachineHealth(inst.machineId, replies, metrics, cleanup, now);
      failure := ps.CheckProvisioningTimeout(inst.status, now, limit);
    }

    /** The part of Update that follows the label write. */
    method WriteRefreshed(obj: MachineObject, ps: ProviderStatus, inst: Instance, now: int, ghost before: MachineStatus)
      returns (error: Option<Script.ActuatorError>, ghost steps: seq<Action>, ghost work: Option<Work>)
      requires world.Valid() && world.s.pc == ReadingHealth(obj.value, inst)
      requires obj.value.status == before && ps.View() == ObservedStatus(before.provider, inst, now)
      modifies world`s, world`log, obj, ps, metrics, cleanup
      ensures world.Valid() && Wrote(old(world.log), world.log, steps, work)
      ensures Script.Refresh(before, inst, steps, error, work)
      ensures world.s.pc == Idle(Returned(Script.ResultOf(error, Result(RETRY_SECONDS, false))))
      ensures Script.Accounted(work, world.s.cfg, metrics.machinesUnhealthy - old(metrics.machinesUnhealthy),
                               |cleanup.deleted| - |old(cleanup.deleted)|)
    {
      var replies := world.GetHealth(obj.value, inst, now);
      ghost var asked, fate := world.log, Failed;
      error, fate, work := RefreshAndStore(obj, ps, inst, replies, now, before);
      WroteLater(old(world.log), asked, world.log, [ReadHealth(replies, now)], [WriteStatus(fate)], work);
      Script.RefreshFrom(before, inst, replies, now, fate);
      steps := [ReadHealth(replies, now)] + [WriteStatus(fate)];
    }

    /** Update from the health answers on. */
    method RefreshAndStore(obj: MachineObject, ps: ProviderStatus, inst: Instance, replies: Replies, now: int,
                           ghost before: MachineStatus)
      returns (error: Option<Script.ActuatorError>, ghost fate: Fate, ghost work: Option<Work>)
      requires world.Valid() && world.s.pc == WritingUpdate(obj.value, Updated(inst, replies, now))
      requires obj.value.status == before && ps.View() == ObservedStatus(before.provider, inst, now)
      modifies world`s, world`log, obj, ps, metrics, cleanup
      ensures world.Valid() && Wrote(old(world.log), world.log, [WriteStatus(fate)], work)
      ensures work == Some(Work(before, Updated(inst, replies, now), !fate.Failed?))
      ensures error == if fate.Applied? then None else Some(Script.TRANSIENT)
      ensures world.s.pc == Idle(Returned(Script.ResultOf(error, Result(RETRY_SECONDS, false))))
      ensures Script.Accounted(work, world.s.cfg, metrics.machinesUnhealthy - old(metrics.machinesUnhealthy),
                               |cleanup.deleted| - |old(cleanup.deleted)|)
    {
      ghost var cfg := world.s.cfg;
      var after := RefreshStatus(ps, obj.value.status, inst, replies, now, world.s.cfg.timeout);
      error, fate, work := StoreRefreshed(obj, after, inst, replies, now, before);
      Script.AccountedUpdate(before, inst, replies, now, !fate.Failed?, cfg,
                             metrics.machinesUnhealthy - old(metrics.machinesUnhealthy),
                             |cleanup.deleted| - |old(cleanup.deleted)|);
    }

    /** The status write of an Update. */
    method StoreRefreshed(obj: MachineObject, after: MachineStatus, inst: Instance, replies: Replies, now: int,
                          ghost before: MachineStatus)
      returns (error: Option<Script.ActuatorError>, ghost fate: Fate, ghost work: Option<Work>)
      requires world.Valid() && world.s.pc == WritingUpdate(obj.value, Updated(inst, replies, now))
      requires obj.value.status == before && after == AfterUpdate(before, inst, replies, now, world.s.cfg.timeout)
      modifies world`s, world`log, obj
      ensures world.Valid() && Wrote(old(world.log), world.log, [WriteStatus(fate)], work)
      ensures work == Some(Work(before, Updated(inst, replies, now), !fate.Failed?))
      ensures error == if fate.Applied? then None else Some(Script.TRANSIENT)
      ensures world.s.pc == Idle(Returned(Script.ResultOf(error, Result(RETRY_SECONDS, false))))
    {
      obj.value := obj.value.(status := after);
      var ok, how := world.UpdateStatus(obj);
      fate := how;
      work := Some(Work(before, Updated(inst, replies, now), !fate.Failed?));
      error := if ok then None else Some(Script.TRANSIENT);
    }

    /** The instance's own status, written to the decoded status. */
    method Observe(ps: ProviderStatus, inst: Instance, now: int)
      modifies ps
      ensures ps.View() == ObservedStatus(old(ps.View()), inst, now)
    {
      if inst.status.Some? {
        ps.instanceState := inst.status;
        ps.SetInstanceStateConditions(inst.status.value, now);
      }
      if inst.machineId.Some? {
        ps.machineId := inst.machineId;
      }
    }

    /** Labels are written, before any status, only if one changed. */
    method WriteTopology(obj: MachineObject, spec: Spec, inst: Instance) returns (ok: bool, ghost steps: seq<Action>)
      requires world.Valid() && obj.value.spec == Some(spec)
      requires world.s.pc == AfterGet(obj.value, inst)
      modifies world`s, world`log, obj
      ensures world.Valid() && Went(old(world.log), world.log, steps, [])
      ensures Script.Labels(old(obj.value), spec, inst, steps, ok)
      ensures steps == [] <==> WithTopology(old(obj.value.labels), inst, spec.instanceTypeId) == old(obj.value.labels)
      ensures world.s.pc == if ok then ReadingHealth(obj.value, inst) else Idle(Returned(RETRY))
      ensures ok ==> obj.value.status == old(obj.value.status)
    {
      var labels, changed := SetTopologyLabels(obj.value.labels, inst, spec.instanceTypeId);
      ok, steps := true, [];
      if changed {
        obj.value := obj.value.(labels := labels);
        ghost var fate;
        ok, fate := world.Update(obj);
        steps := [WriteLabels(fate)];
      }
    }

    /** Update. */
    method Update(obj: MachineObject)
      returns (error: Option<Script.ActuatorError>, ghost steps: seq<Action>, ghost work: Option<Work>)
      requires world.Valid() && world.s.pc == CallingGet(obj.value)
      modifies world, obj, metrics, cleanup
      ensures world.Valid() && Wrote(old(world.log), world.log, steps, work)
      ensures Script.Update(old(obj.value), steps, error, work)
      ensures !world.client ==> error == Some(Script.TRANSIENT)
      ensures world.s.pc == Idle(Returned(Script.ResultOf(error, Result(RETRY_SECONDS, false))))
      ensures Script.Accounted(work, world.s.cfg, metrics.machinesUnhealthy - old(metrics.machinesUnhealthy),
                               |cleanup.deleted| - |old(cleanup.deleted)|)
    {
      var ok := obj.value.spec.Some? && obj.value.status.provider.instanceId.Some?;
      if ok {
        ok := world.GetClient();
      }
      if !ok {
        world.FailLookup();
        WroteNothing(old(world.log), world.log, [CallGet(GetFailed(None))]);
        return Some(Script.TRANSIENT), [CallGet(GetFailed(None))], None;
      }
      error, steps, work := LookUpAndUpdate(obj);
    }

    /** Update from the lookup on. */
    method LookUpAndUpdate(obj: MachineObject)
      returns (error: Option<Script.ActuatorError>, ghost steps: seq<Action>, ghost work: Option<Work>)
      requires world.Valid() && world.s.pc == CallingGet(obj.value) && obj.value.spec.Some?
      modifies world`s, world`log, obj, metrics, cleanup
      ensures world.Valid() && Wrote(old(world.log), world.log, steps, work)
      ensures Script.Update(old(obj.value), steps, error, work)
      ensures world.s.pc == Idle(Returned(Script.ResultOf(error, Result(RETRY_SECONDS, false))))
      ensures Script.Accounted(work, world.s.cfg, metrics.machinesUnhealthy - old(metrics.machinesUnhealthy),
                               |cleanup.deleted| - |old(cleanup.deleted)|)
    {
      error, work := Some(Script.TRANSIENT), None;
      var ps := new ProviderStatus.Decode(obj.value.status.provider);
      var reply := world.GetInstance(obj.value);
      steps := [CallGet(reply)];
      ghost var answered := world.log;
      WroteNothing(old(world.log), answered, steps);
      if reply.Found? {
        ghost var rest;
        error, rest, work := UpdateFrom(obj, ps, reply.inst);
        WroteLater(old(world.log), answered, world.log, steps, rest, work);
        steps := steps + rest;
      }
    }

    /** Update from the instance that the cloud returned. */
    method UpdateFrom(obj: MachineObject, ps: ProviderStatus, inst: Instance)
      returns (error: Option<Script.ActuatorError>, ghost steps: seq<Action>, ghost work: Option<Work>)
      requires world.Valid() && obj.value.spec.Some? && world.s.pc == AfterGet(obj.value, inst)
      requires ps.View() == obj.value.status.provider
      modifies world`s, world`log, obj, ps, metrics, cleanup
      ensures world.Valid() && Wrote(old(world.log), world.log, steps, work)
      ensures Script.UpdateFrom(old(obj.value), old(obj.value).spec.value, inst, steps, error, work)
      ensures world.s.pc == Idle(Returned(Script.ResultOf(error, Result(RETRY_SECONDS, false))))
      ensures Script.Accounted(work, world.s.cfg, metrics.machinesUnhealthy - old(metrics.machinesUnhealthy),
                               |cleanup.deleted| - |old(cleanup.deleted)|)
    {
      var now: int := *;
      Observe(ps, inst, now);
      ghost var before := obj.value;
      var spec := obj.value.spec.value;
      var ok, first := WriteTopology(obj, spec, inst);
      ghost var labelled := world.log;
      WroteNothing(old(world.log), labelled, first);
      if ok {
        ghost var rest;
        error, rest, work := WriteRefreshed(obj, ps, inst, now, before.status);
        steps := first + rest;
        WroteLater(old(world.log), labelled, world.log, first, rest, work);
        Script.UpdateFromParts(before, spec, inst, first, rest, error, work);
      } else {
        Script.UpdateFromFailedLabels(before, spec, inst, first);
        error, steps, work := Some(Script.TRANSIENT), first, None;
      }
    }

    /** Delete; true on error. */
    method Delete(obj: MachineObject) returns (failed: bool, ghost steps: seq<Action>)
      requires world.Valid() && world.s.pc == CallingDelete(obj.value)
      modifies world
      ensures world.Valid() && Went(old(world.log), world.log, steps, []) && Script.Delete(obj.value, steps, failed)
      ensures obj.value.Recorded().Some? && (obj.value.spec.None? || !world.client) ==> failed
      ensures obj.value.Recorded().None? && obj.value.spec.Some? ==> !failed && steps == [SkipDelete]
      ensures obj.value.Recorded().Some? ==>
                && |steps| == 1 && steps[0].CallDelete?
                && var reply := steps[0].deleted;
                   !failed <==>
                   if reply.error then reply.code == Some(404)
                   else reply.code == Some(200) || reply.code == Some(202)
                        || reply.code == Some(204) || reply.code == Some(404)
      ensures !failed && obj.value.Recorded().Some? ==> obj.value.Recorded().value in world.s.acked
      ensures world.s.pc == if failed then Idle(Returned(ERROR)) else StrippingFinalizers(obj.value)
    {
      var ok := obj.value.spec.Some?;
      if ok && obj.value.status.provider.instanceId.None? {
        world.NothingToDelete(obj.value);
        return false, [SkipDelete];
      }
      if ok {
        ok := world.GetClient();
      }
      if !ok {
        world.FailDelete(obj.value);
        return true, [CallDelete(FAILED_DELETE)];
      }
      var reply := world.DeleteInstance(obj.value);
      steps := [CallDelete(reply)];
      if reply.error {
        if reply.code == Some(404) {
          return false, steps;
        }
        return true, steps;
      } else if reply.code != Some(200) && reply.code != Some(202)
                && reply.code != Some(204) && reply.code != Some(404) {
        return true, steps;
      }
      return false, steps;
    }
  }

  /** The decoded status after the instance's own conditions were written. */
  function ObservedStatus(before: StatusView, inst: Instance, now: int): StatusView {
    before.(conditions := ApplyOps(before.conditions, ObservedOps(inst.status), now),
            instanceState := if inst.status.Some? then inst.status else before.instanceState,
            machineId := if inst.machineId.Some? then inst.machineId else before.machineId)
  }

  /** The three runs of condition writes of an Update, put together. */
  lemma RefreshedConditions(cs: seq<Condition>, inst: Instance, replies: Replies, now: int, limit: int)
    ensures var checked := ApplyOps(ApplyOps(cs, ObservedOps(inst.status), now),
                                   HealthEffect(inst.machineId, replies).ops, now);
            && TimedOut(checked, inst.status, now, limit) == TimedOut(cs, inst.status, now, limit)
            && ApplyOps(cs, UpdateOps(cs, inst, replies, now, limit), now)
               == if TimedOut(cs, inst.status, now, limit) then Upsert(checked, TimeoutOp(limit), now) else checked
  {
    var a, b := ObservedOps(inst.status), HealthEffect(inst.machineId, replies).ops;
    var c := if TimedOut(cs, inst.status, now, limit) then [TimeoutOp(limit)] else [];
    ApplyOpsAppend(cs, a, b, now);
    ApplyOpsAppend(cs, a + b, c, now);
    UpdateOpsKinds(cs, inst, replies, now, limit);
    ProvisionedAtStable(cs, a + b, now);
    ApplyOne(ApplyOps(cs, a + b, now), TimeoutOp(limit), now);
  }

  /** So the status that Update puts together from them is the specified one. */
  lemma RefreshResult(before: MachineStatus, observed: StatusView, after: MachineStatus,
                      inst: Instance, replies: Replies, now: int, limit: int)
    requires observed == ObservedStatus(before.provider, inst, now)
    requires var effect := HealthEffect(inst.machineId, replies);
             var checked := ApplyOps(observed.conditions, effect.ops, now);
             var late := TimedOut(checked, inst.status, now, limit);
             && after.provider == observed.(
                  conditions := if late then Upsert(checked, TimeoutOp(limit), now) else checked,
                  healthLabels := if effect.labels.Some? then effect.labels.value else observed.healthLabels,
                  addresses := Addresses(inst.interfaces))
             && after.failure == if late then Some(TimeoutFailure(inst.status.value, limit)) else before.failure
    ensures after == AfterUpdate(before, inst, replies, now, limit)
  {
    RefreshedConditions(before.provider.conditions, inst, replies, now, limit);
  }

  /** MachineHealthy before and after the health check is MachineHealthy before and after the Update. */
  lemma RefreshAccounting(before: MachineStatus, inst: Instance, replies: Replies, now: int, limit: int)
    ensures var cs := before.provider.conditions;
            var observed := ApplyOps(cs, ObservedOps(inst.status), now);
            var checked := ApplyOps(observed, HealthEffect(inst.machineId, replies).ops, now);
            var after := AfterUpdate(before, inst, replies, now, limit).provider.conditions;
            && IsFalse(observed, MachineHealthy) == IsFalse(cs, MachineHealthy)
            && IsFalse(checked, MachineHealthy) == IsFalse(after, MachineHealthy)
  {
    var cs := before.provider.conditions;
    var a, b := ObservedOps(inst.status), HealthEffect(inst.machineId, replies).ops;
    if inst.status.Some? {
      InstanceOpsKinds(inst.status.value);
    }
    LastOpNone(a, MachineHealthy);
    FindApplyOps(cs, a, now, MachineHealthy);
    FindApplyOps(ApplyOps(cs, a, now), b, now, MachineHealthy);
    UpdateHealthStatus(cs, inst, replies, now, limit, False);
  }

  class MachineReconciler {
    const actuator: Actuator
    const world: World

    constructor (actuator: Actuator)
      ensures this.actuator == actuator && world == actuator.world
    {
      this.actuator, world := actuator, actuator.world;
    }

    /** Reconcile: one run of the controller from idle to idle. It extends the
        run of the protocol by the calls of its script, ends in exactly the
        result that is returned, and accounts for gauge and clean-up. */
    method Reconcile(name: string)
      returns (result: Result, ghost found: Option<Machine>, ghost steps: seq<Action>, ghost work: Option<Work>)
      requires world == actuator.world
      requires world.Valid() && world.s.pc.Idle?
      modifies world, actuator.metrics, actuator.cleanup
      ensures world.Valid() && Wrote(old(world.log), world.log, steps, work)
      ensures Script.Reconcile(found, actuator.org, actuator.alt, steps, result, work)
      ensures world.s.pc == Idle(Returned(result))
      ensures Script.Accounted(work, world.s.cfg,
                               actuator.metrics.machinesUnhealthy - old(actuator.metrics.machinesUnhealthy),
                               |actuator.cleanup.deleted| - |old(actuator.cleanup.deleted)|)
    {
      var read, gone, call := world.Get();
      found, work := read, None;
      ghost var got := world.log;
      WroteNothing(old(world.log), got, [call]);
      if read.None? {
        return if gone then DONE else ERROR, found, [call], None;
      }
      var obj := new MachineObject(read.value);
      ghost var rest;
      result, rest, work := ReconcileRead(obj, name);
      WroteLater(old(world.log), got, world.log, [call], rest, work);
      Script.ReconcileFrom(read.value, actuator.org, actuator.alt, rest, result, work);
      steps := [call] + rest;
    }

    /** Reconcile from the read on. */
    method ReconcileRead(obj: MachineObject, name: string)
      returns (result: Result, ghost steps: seq<Action>, ghost work: Option<Work>)
      requires world == actuator.world
      requires world.Valid() && world.s.pc == AfterRead(obj.value)
      modifies world, obj, actuator.metrics, actuator.cleanup
      ensures world.Valid() && Wrote(old(world.log), world.log, steps, work)
      ensures Script.FromRead(old(obj.value), actuator.org, actuator.alt, steps, result, work)
      ensures world.s.pc == Idle(Returned(result))
      ensures Script.Accounted(work, world.s.cfg,
                               actuator.metrics.machinesUnhealthy - old(actuator.metrics.machinesUnhealthy),
                               |actuator.cleanup.deleted| - |old(actuator.cleanup.deleted)|)
    {
      if obj.value.deleting {
        result, steps := ReconcileDelete(obj);
        work := None;
        WroteNothing(old(world.log), world.log, steps);
      } else {
        result, steps, work := ReconcileNormal(obj, name);
      }
    }

    method ReconcileNormal(obj: MachineObject, name: string)
      returns (result: Result, ghost steps: seq<Action>, ghost work: Option<Work>)
      requires world == actuator.world
      requires world.Valid() && world.s.pc == AfterRead(obj.value) && !obj.value.deleting
      modifies world, obj, actuator.metrics, actuator.cleanup
      ensures world.Valid() && Wrote(old(world.log), world.log, steps, work)
      ensures Script.Normal(old(obj.value), actuator.org, actuator.alt, steps, result, work)
      ensures world.s.pc == Idle(Returned(result))
      ensures Script.Accounted(work, world.s.cfg,
                               actuator.metrics.machinesUnhealthy - old(actuator.metrics.machinesUnhealthy),
                               |actuator.cleanup.deleted| - |old(actuator.cleanup.deleted)|)
    {
      ghost var before := obj.value;
      if !obj.value.current {
        ghost var fate;
        result, fate := AddFinalizer(obj);
        return result, [WriteFinalizer(fate)], None;
      }
      var exists_, first := actuator.Exists(obj);
      ghost var looked, rest := world.log, [];
      result, rest, work := Proceed(obj, name, exists_);
      WroteLater(old(world.log), looked, world.log, first, rest, work);
      steps := first + rest;
      Script.NormalFrom(before, actuator.org, actuator.alt, exists_, first, rest, result, work);
    }

    /** The finalizer, and nothing else in this reconcile. */
    method AddFinalizer(obj: MachineObject) returns (result: Result, ghost fate: Fate)
      requires world.Valid() && world.s.pc == AddingFinalizer(obj.value)
      modifies world`s, world`log, obj
      ensures world.Valid() && Wrote(old(world.log), world.log, [WriteFinalizer(fate)], None)
      ensures result == if fate.Applied? then Result(1, false) else ERROR
      ensures world.s.pc == Idle(Returned(result))
    {
      obj.value := obj.value.(current := true);
      var ok, how := world.Update(obj);
      fate := how;
      WroteNothing(old(world.log), world.log, [WriteFinalizer(fate)]);
      result := if ok then Result(1, false) else ERROR;
    }

    /** reconcileNormal after Exists. */
    method Proceed(obj: MachineObject, name: string, exists_: Option<bool>)
      returns (result: Result, ghost steps: seq<Action>, ghost work: Option<Work>)
      requires world == actuator.world && world.Valid()
      requires world.s.pc == match exists_
                             case None => Idle(Returned(RETRY))
                             case Some(true) => CallingGet(obj.value)
                             case Some(false) => Gating(obj.value)
      modifies world, obj, actuator.metrics, actuator.cleanup
      ensures world.Valid() && Wrote(old(world.log), world.log, steps, work)
      ensures Script.AfterExists(old(obj.value), actuator.org, actuator.alt, exists_, steps, result, work)
      ensures world.s.pc == Idle(Returned(result))
      ensures Script.Accounted(work, world.s.cfg,
                               actuator.metrics.machinesUnhealthy - old(actuator.metrics.machinesUnhealthy),
                               |actuator.cleanup.deleted| - |old(actuator.cleanup.deleted)|)
    {
      if exists_.None? {
        return RETRY, [], None;
      }
      var error: Option<Script.ActuatorError>;
      if !exists_.value {
        error, steps, work := actuator.Create(obj, name);
        result := Script.ResultOf(error, Result(10, false));
      } else {
        error, steps, work := actuator.Update(obj);
        result := Script.ResultOf(error, Result(RETRY_SECONDS, false));
      }
    }

    method ReconcileDelete(obj: MachineObject) returns (result: Result, ghost steps: seq<Action>)
      requires world == actuator.world
      requires world.Valid() && world.s.pc == CallingDelete(obj.value)
      modifies world, obj
      ensures world.Valid() && Went(old(world.log), world.log, steps, [])
      ensures Script.Deletion(old(obj.value), steps, result)
      ensures world.s.pc == Idle(Returned(result))
    {
      var failed, first := actuator.Delete(obj);
      ghost var before, deleted := obj.value, world.log;
      if failed {
        Script.FailedDeletion(obj.value, first);
        return ERROR, first;
      }
      obj.value := obj.value.(current := false);
      obj.value := obj.value.(legacy := false);
      var ok, fate := world.Update(obj);
      steps := first + [StripFinalizers(fate)];
      WentOn(old(world.log), deleted, world.log, first, [StripFinalizers(fate)], [], []);
      Script.DeletionFrom(before, first, fate);
      result := if ok then DONE else ERROR;
    }
  }
}
