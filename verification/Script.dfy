/** The calls that each method of the controller makes, in order, and what they
    lead to: the reference that the methods of Reconciler are proved against. */
module Script {
  import opened Options
  import opened Health
  import opened Idempotence
  import opened Provider
  import opened History
  import opened ProviderSpec
  import opened Topology
  import opened PreFlight
  import opened Protocol
  import Fleet
  import ProviderId
  import Uuid

  /** An actuator error; only a classified HTTP 400 is terminal. */
  datatype ActuatorError = ActuatorError(terminal: bool)

  const TRANSIENT := ActuatorError(false)

  /** handleActuatorError, and the success branch beside it. */
  function ResultOf(error: Option<ActuatorError>, success: Result): Result {
    match error
    case None => success
    case Some(e) => if e.terminal then DONE else RETRY
  }

  // ---------- what a reconcile does to gauge and clean-up ----------

  /** The event that a status write leaves in the history, if it is accepted. */
  function EventIf(accepted: bool, e: Event): seq<Event> {
    if accepted then [e] else []
  }

  function EventsOf(work: Option<Work>): seq<Event> {
    if work.Some? then EventIf(work.value.accepted, work.value.event) else []
  }

  /** Gauge and report clean-up move as the status write says, accepted or not. */
  predicate Accounted(work: Option<Work>, cfg: Config, gaugeChange: int, cleanups: int) {
    if work.None? then gaugeChange == 0 && cleanups == 0
    else gaugeChange == Fleet.GaugeMove(work.value, cfg) && cleanups == Fleet.Cleanups(work.value, cfg)
  }

  // ---------- Exists ----------

  /** One lookup if an instance is recorded, none otherwise. */
  predicate Exists(m: Machine, steps: seq<Action>, exists_: Option<bool>) {
    if m.Recorded().None? then steps == [] && exists_ == Some(false)
    else |steps| == 1 && steps[0].AskExists? && exists_ == Existence(steps[0].reply)
  }

  // ---------- Create ----------

  /** What Create needs before it asks for machine health. */
  predicate Admits(spec: Option<Spec>, client: bool, targeting: bool) {
    && spec.Some? && Validate(spec.value) == None && client
    && (spec.value.machineId != "" ==> targeting)
  }

  function Alert(spec: Spec, gate: Action): Option<string>
    requires gate.Gate?
  {
    if Targeted(spec) then GateAlert(spec.machineId, gate.replies, gate.runs) else None
  }

  /** The gate; then either the status of a blocked Create, or CreateInstance
      and, if it returned an instance, the writes that record it. */
  predicate Create(m: Machine, org: string, alt: ProviderId.AltUuid,
                   steps: seq<Action>, error: Option<ActuatorError>, work: Option<Work>)
  {
    && steps != [] && steps[0].Gate?
    && if !steps[0].admitted then |steps| == 1 && error == Some(TRANSIENT) && work == None
       else m.spec.Some? && CreateAdmitted(m, m.spec.value, org, alt, steps, error, work)
  }

  predicate CreateAdmitted(m: Machine, spec: Spec, org: string, alt: ProviderId.AltUuid,
                           steps: seq<Action>, error: Option<ActuatorError>, work: Option<Work>)
    requires steps != [] && steps[0].Gate?
  {
    AfterGate(m, spec, org, alt, Alert(spec, steps[0]), steps[0].at, steps[1..], error, work)
  }

  predicate AfterGate(m: Machine, spec: Spec, org: string, alt: ProviderId.AltUuid, alert: Option<string>, at: int,
                      steps: seq<Action>, error: Option<ActuatorError>, work: Option<Work>)
  {
    if alert.Some? then
      && |steps| == 1 && steps[0].WriteStatus? && error == Some(TRANSIENT)
      && work == Some(Work(m.status, Blocked(spec.machineId, alert.value, at), !steps[0].fate.Failed?))
    else Launch(m, spec, org, alt, steps, error, work)
  }

  /** CreateInstance and, if it returned an instance, the writes that record it. */
  predicate Launch(m: Machine, spec: Spec, org: string, alt: ProviderId.AltUuid,
                   steps: seq<Action>, error: Option<ActuatorError>, work: Option<Work>)
  {
    && steps != [] && steps[0].CallCreate?
    && match steps[0].created
       case CreateFailed(code, _) => |steps| == 1 && error == Some(ActuatorError(code == Some(400))) && work == None
       case CreateEmpty(_) => |steps| == 1 && error == Some(TRANSIENT) && work == None
       case CreatedInstance(inst) =>
         && Record(spec, inst, org, alt, steps[1..], error)
         && work == Some(Work(m.status, Created(inst, steps[0].at), !steps[1].fate.Failed?))
  }

  /** Status, provider ID and DPU services in this order, up to the first failure. */
  predicate Record(spec: Spec, inst: Instance, org: string, alt: ProviderId.AltUuid,
                   steps: seq<Action>, error: Option<ActuatorError>)
  {
    && steps != [] && steps[0].WriteStatus?
    && if !steps[0].fate.Applied? then |steps| == 1 && error == Some(TRANSIENT)
       else RecordProviderId(spec, inst, org, alt, steps[1..], error)
  }

  /** An instance ID that is no UUID counts as a failed write. */
  predicate RecordProviderId(spec: Spec, inst: Instance, org: string, alt: ProviderId.AltUuid,
                             steps: seq<Action>, error: Option<ActuatorError>)
  {
    && steps != [] && WritesProviderId(spec, inst, org, alt, steps[0])
    && if steps[0].fate.Applied? then Deploy(spec, steps[1..], error) else |steps| == 1 && error == Some(TRANSIENT)
  }

  /** One call if the spec has DPU services, none otherwise. */
  predicate Deploy(spec: Spec, steps: seq<Action>, error: Option<ActuatorError>) {
    if spec.dpuServices == [] then steps == [] && error == None
    else |steps| == 1 && steps[0].DeployDpu? && error == if steps[0].deployed then None else Some(TRANSIENT)
  }

  predicate WritesProviderId(spec: Spec, inst: Instance, org: string, alt: ProviderId.AltUuid, step: Action) {
    && step.WriteProviderId?
    && match Uuid.Parse(inst.id, alt)
       case None => step.fate.Failed?
       case Some(uuid) => step.text == ProviderId.Print(ProviderId.ProviderId(org, spec.tenantId, spec.siteId, uuid))
  }

  // ---------- Update ----------

  predicate Update(m: Machine, steps: seq<Action>, error: Option<ActuatorError>, work: Option<Work>) {
    && steps != [] && steps[0].CallGet?
    && if !steps[0].reply.Found? then |steps| == 1 && error == Some(TRANSIENT) && work == None
       else m.spec.Some? && UpdateFrom(m, m.spec.value, steps[0].reply.inst, steps[1..], error, work)
  }

  /** One write if a label changed, none otherwise. */
  predicate Labels(m: Machine, spec: Spec, inst: Instance, steps: seq<Action>, ok: bool) {
    if WithTopology(m.labels, inst, spec.instanceTypeId) == m.labels then ok && steps == []
    else |steps| == 1 && steps[0].WriteLabels? && ok == steps[0].fate.Applied?
  }

  /** Labels first, but only if one changed; without them no status. */
  predicate UpdateFrom(m: Machine, spec: Spec, inst: Instance,
                       steps: seq<Action>, error: Option<ActuatorError>, work: Option<Work>)
  {
    if WithTopology(m.labels, inst, spec.instanceTypeId) == m.labels then Refresh(m.status, inst, steps, error, work)
    else
      && steps != [] && steps[0].WriteLabels?
      && if !steps[0].fate.Applied? then |steps| == 1 && error == Some(TRANSIENT) && work == None
         else Refresh(m.status, inst, steps[1..], error, work)
  }

  predicate Refresh(status: MachineStatus, inst: Instance,
                    steps: seq<Action>, error: Option<ActuatorError>, work: Option<Work>)
  {
    && |steps| == 2 && steps[0].ReadHealth? && steps[1].WriteStatus?
    && work == Some(Work(status, Updated(inst, steps[0].replies, steps[0].at), !steps[1].fate.Failed?))
    && error == if steps[1].fate.Applied? then None else Some(TRANSIENT)
  }

  // ---------- Delete ----------

  /** Nothing to delete without a recorded instance, else one call. */
  predicate Delete(m: Machine, steps: seq<Action>, failed: bool) {
    if m.spec.Some? && m.Recorded().None? then steps == [SkipDelete] && !failed
    else |steps| == 1 && steps[0].CallDelete? && (failed <==> !Acknowledges(steps[0].deleted))
  }

  // ---------- the reconciler ----------

  /** The finalizer alone; or Exists, and then Create or Update. */
  ghost predicate Normal(m: Machine, org: string, alt: ProviderId.AltUuid,
                         steps: seq<Action>, result: Result, work: Option<Work>)
  {
    if !m.current then
      |steps| == 1 && steps[0].WriteFinalizer? && work == None
      && result == if steps[0].fate.Applied? then Result(1, false) else ERROR
    else
      exists k: nat, exists_ ::
        k <= |steps| && Exists(m, steps[..k], exists_) && AfterExists(m, org, alt, exists_, steps[k..], result, work)
  }

  ghost predicate AfterExists(m: Machine, org: string, alt: ProviderId.AltUuid, exists_: Option<bool>,
                              steps: seq<Action>, result: Result, work: Option<Work>)
  {
    match exists_
    case None => steps == [] && result == RETRY && work == None
    case Some(false) =>
      exists error :: Create(m, org, alt, steps, error, work) && result == ResultOf(error, Result(10, false))
    case Some(true) =>
      exists error :: Update(m, steps, error, work) && result == ResultOf(error, Result(RETRY_SECONDS, false))
  }

  /** Delete, and only after its success both finalizers in one write. */
  predicate Deletion(m: Machine, steps: seq<Action>, result: Result) {
    && steps != []
    && if Delete(m, steps[..1], true) then |steps| == 1 && result == ERROR
       else
         && Delete(m, steps[..1], false)
         && |steps| == 2 && steps[1].StripFinalizers? && result == if steps[1].fate.Applied? then DONE else ERROR
  }

  /** A whole reconcile of the Machine that was read, if one was. */
  ghost predicate Reconcile(found: Option<Machine>, org: string, alt: ProviderId.AltUuid,
                            steps: seq<Action>, result: Result, work: Option<Work>)
  {
    && steps != []
    && match found
       case None =>
         && |steps| == 1 && work == None
         && ((steps[0] == ReadNotFound && result == DONE) || (steps[0] == ReadFailed && result == ERROR))
       case Some(m) =>
         && steps[0] == Read(m.version)
         && FromRead(m, org, alt, steps[1..], result, work)
  }

  ghost predicate FromRead(m: Machine, org: string, alt: ProviderId.AltUuid,
                            steps: seq<Action>, result: Result, work: Option<Work>)
  {
    if m.deleting then Deletion(m, steps, result) && work == None else Normal(m, org, alt, steps, result, work)
  }

  // ---------- putting them together ----------

  /** The gauge and clean-up of an Update are those of its status write. */
  lemma AccountedUpdate(from: MachineStatus, inst: Instance, replies: Replies, at: int, accepted: bool, cfg: Config,
                        gaugeChange: int, cleanups: int)
    requires gaugeChange == GaugeStep(from.provider.conditions,
                                      AfterUpdate(from, inst, replies, at, cfg.timeout).provider.conditions)
    requires cleanups == if CleansUp(from, inst, replies, at, cfg.timeout) then 1 else 0
    ensures Accounted(Some(Work(from, Updated(inst, replies, at), accepted)), cfg, gaugeChange, cleanups)
  {
  }

  lemma RefreshFrom(from: MachineStatus, inst: Instance, replies: Replies, at: int, fate: Fate)
    ensures Refresh(from, inst, [ReadHealth(replies, at)] + [WriteStatus(fate)],
                    if fate.Applied? then None else Some(TRANSIENT),
                    Some(Work(from, Updated(inst, replies, at), !fate.Failed?)))
  {
  }

  lemma UpdateFromParts(m: Machine, spec: Spec, inst: Instance, first: seq<Action>, rest: seq<Action>,
                        error: Option<ActuatorError>, work: Option<Work>)
    requires Labels(m, spec, inst, first, true) && Refresh(m.status, inst, rest, error, work)
    ensures UpdateFrom(m, spec, inst, first + rest, error, work)
  {
    if first != [] {
      assert (first + rest)[1..] == rest;
    } else {
      assert first + rest == rest;
    }
  }

  lemma UpdateFromFailedLabels(m: Machine, spec: Spec, inst: Instance, steps: seq<Action>)
    requires Labels(m, spec, inst, steps, false)
    ensures UpdateFrom(m, spec, inst, steps, Some(TRANSIENT), None)
  {
  }

  lemma NormalFrom(m: Machine, org: string, alt: ProviderId.AltUuid, exists_: Option<bool>, first: seq<Action>,
                   rest: seq<Action>, result: Result, work: Option<Work>)
    requires m.current && Exists(m, first, exists_) && AfterExists(m, org, alt, exists_, rest, result, work)
    ensures Normal(m, org, alt, first + rest, result, work)
  {
    var steps := first + rest;
    assert steps[..|first|] == first && steps[|first|..] == rest;
  }

  lemma DeletionFrom(m: Machine, first: seq<Action>, fate: Fate)
    requires Delete(m, first, false)
    ensures Deletion(m, first + [StripFinalizers(fate)], if fate.Applied? then DONE else ERROR)
  {
    assert (first + [StripFinalizers(fate)])[..1] == first;
  }

  lemma FailedDeletion(m: Machine, steps: seq<Action>)
    requires Delete(m, steps, true)
    ensures Deletion(m, steps, ERROR)
  {
    assert steps[..1] == steps;
  }

  lemma ReconcileFrom(m: Machine, org: string, alt: ProviderId.AltUuid,
                      rest: seq<Action>, result: Result, work: Option<Work>)
    requires FromRead(m, org, alt, rest, result, work)
    ensures Reconcile(Some(m), org, alt, [Read(m.version)] + rest, result, work)
  {
    assert ([Read(m.version)] + rest)[1..] == rest;
  }
}
