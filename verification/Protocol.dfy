/** The life of one Machine as a step system: the persisted object with every
    version it has had, the instances in the cloud, the reconcile in progress,
    and the history that the safety claims talk about.

    Every remote call and every write succeeds, fails without effect, or takes
    effect and then reports a failure. The user, other controllers, the cloud
    and process crashes interleave between any two steps. A reconcile may start
    from any past version (a stale cache); writes succeed only on the current one. */
module Protocol {
  import opened Options
  import opened Health
  import opened Provider
  import opened History
  import opened ProviderSpec
  import opened Topology
  import opened PreFlight

  type Id = string

  datatype Machine = Machine(
    version: nat,
    current: bool,
    legacy: bool,
    foreign: set<string>,
    deleting: bool,
    spec: Option<Spec>,
    labels: Labels,
    providerId: Option<string>,
    status: MachineStatus)
  {
    /** The recorded instance. */
    function Recorded(): Option<Id> {
      status.provider.instanceId
    }

    predicate Finalized() {
      current || legacy || foreign != {}
    }
  }

  // ---------- results of a reconcile ----------

  const RETRY_SECONDS := 30

  datatype Result = Result(requeueAfter: nat, failed: bool)

  const DONE := Result(0, false)
  const ERROR := Result(0, true)
  const RETRY := Result(RETRY_SECONDS, true)

  datatype Outcome = NotStarted | Crashed | Returned(result: Result)

  /** classifyHTTPError and handleActuatorError: only status 400 is terminal. */
  function CreateErrorResult(code: Option<int>): Result {
    if code == Some(400) then DONE else RETRY
  }

  // ---------- the reconcile in progress ----------

  /** What the controller does next; `m` is the object it holds in memory. */
  datatype Pc =
    | Idle(outcome: Outcome)
    | AddingFinalizer(m: Machine)
    | CheckingExists(m: Machine)
    | Gating(m: Machine)
    | WritingBlock(m: Machine, event: Event)
    | CallingCreate(m: Machine)
    | WritingCreated(m: Machine, inst: Instance, event: Event)
    | WritingProviderId(m: Machine, inst: Instance)
    | DeployingDpu(m: Machine, inst: Instance)
    | CallingGet(m: Machine)
    | WritingLabels(m: Machine, inst: Instance)
    | ReadingHealth(m: Machine, inst: Instance)
    | WritingUpdate(m: Machine, event: Event)
    | CallingDelete(m: Machine)
    | StrippingFinalizers(m: Machine)

  datatype State = State(
    cfg: Config,
    // API server
    present: bool,
    machine: Machine,
    versions: map<nat, Machine>,
    // cloud
    live: set<Id>,
    born: set<Id>,
    // controller
    pc: Pc,
    // history
    origin: MachineStatus,
    events: seq<Event>,
    acked: set<Id>,
    lost: set<Id>,
    strippedAt: Option<nat>)

  // ---------- steps ----------

  datatype Fate = Applied | Failed | AppliedButFailed

  /** An instance, no error but no instance either, or an error with its status code if there was a response. */
  datatype GetReply = Found(inst: Instance) | NoData | GetFailed(code: Option<int>)

  /** What Exists makes of a reply; `None` is an error. */
  function Existence(reply: GetReply): Option<bool> {
    match reply
    case Found(_) => Some(true)
    case NoData => Some(false)
    case GetFailed(code) => if code == Some(404) then Some(false) else None
  }

  /** `effect` is the instance that a failed or empty call created all the same. */
  datatype CreateReply =
    | CreatedInstance(inst: Instance)
    | CreateFailed(code: Option<int>, effect: Option<Id>)
    | CreateEmpty(effect: Option<Id>)

  /** Whether the call returned an error, the status code of the response if
      there was one, and whether the instance goes at once. */
  datatype DeleteReply = DeleteReply(error: bool, code: Option<int>, removes: bool)

  /** The replies after which Delete succeeds: an error with status 404, or no
      error and one of four codes. */
  predicate Acknowledges(reply: DeleteReply) {
    if reply.error then reply.code == Some(404)
    else reply.code == Some(200) || reply.code == Some(202) || reply.code == Some(204) || reply.code == Some(404)
  }

  datatype Action =
    // user, other controllers, cloud, process
    | UserDelete
    | UserEdit(spec: Option<Spec>, labels: Labels, providerId: Option<string>, foreign: set<string>)
    | Vanish(id: Id)
    | Crash
    // controller
    | Read(version: nat)
    | ReadNotFound
    | ReadFailed
    | WriteFinalizer(fate: Fate)
    | AskExists(reply: GetReply)
    | Gate(admitted: bool, replies: Replies, runs: Option<seq<ValidationRun>>, at: int)
    | WriteStatus(fate: Fate)
    | CallCreate(created: CreateReply, at: int)
    | WriteProviderId(text: string, fate: Fate)
    | DeployDpu(deployed: bool)
    | CallGet(reply: GetReply)
    | WriteLabels(fate: Fate)
    | ReadHealth(replies: Replies, at: int)
    | CallDelete(deleted: DeleteReply)
    | SkipDelete
    | StripFinalizers(fate: Fate)

  /** A write from memory object m takes effect only on the current version. */
  predicate FateAllowed(s: State, m: Machine, fate: Fate) {
    fate.Failed? || (s.present && m.version == s.machine.version)
  }

  /** Replies about the recorded instance: "missing" is truthful, and without a
      spec there is no call to reply to. */
  predicate ReplyAllowed(s: State, m: Machine, reply: GetReply) {
    && (Existence(reply) == Some(false) ==> m.Recorded().Some? && m.Recorded().value !in s.live)
    && (reply == GetFailed(None) || m.spec.Some?)
  }

  /** A delete has effect only with a spec and a recorded instance to delete,
      and a call without error has a response. */
  predicate DeleteAllowed(m: Machine, reply: DeleteReply) {
    && (Acknowledges(reply) || reply.removes ==> m.spec.Some? && m.Recorded().Some?)
    && (reply.error || reply.code.Some?)
  }

  predicate FreshEffect(s: State, effect: Option<Id>) {
    effect.Some? ==> effect.value !in s.born
  }

  /** The cloud never gives out an instance ID twice. */
  predicate CreateAllowed(s: State, reply: CreateReply) {
    match reply
    case CreatedInstance(inst) => inst.id !in s.born
    case CreateFailed(_, effect) => FreshEffect(s, effect)
    case CreateEmpty(effect) => FreshEffect(s, effect)
  }

  predicate Targeted(spec: Spec) {
    spec.machineId != "" && !spec.allowUnhealthyMachine
  }

  /** Environment steps are possible whatever the controller is doing. */
  predicate EnvironmentEnabled(s: State, a: Action) {
    match a
    case UserDelete => s.present && !s.machine.deleting
    case UserEdit(_, _, _, _) => s.present
    case Vanish(id) => id in s.live
    case Crash => !s.pc.Idle?
    case _ => false
  }

  predicate ControllerEnabled(s: State, a: Action) {
    match s.pc
    case Idle(_) => (a.Read? && a.version in s.versions) || (a.ReadNotFound? && !s.present) || a.ReadFailed?
    case AddingFinalizer(m) => a.WriteFinalizer? && FateAllowed(s, m, a.fate)
    case CheckingExists(m) => a.AskExists? && ReplyAllowed(s, m, a.reply)
    case Gating(m) => a.Gate? && (a.admitted ==> m.spec.Some? && Validate(m.spec.value) == None)
    case WritingBlock(m, _) => a.WriteStatus? && FateAllowed(s, m, a.fate)
    case CallingCreate(_) => a.CallCreate? && CreateAllowed(s, a.created)
    case WritingCreated(m, _, _) => a.WriteStatus? && FateAllowed(s, m, a.fate)
    case WritingProviderId(m, _) => a.WriteProviderId? && FateAllowed(s, m, a.fate)
    case DeployingDpu(_, _) => a.DeployDpu?
    case CallingGet(m) => a.CallGet? && ReplyAllowed(s, m, a.reply)
    case WritingLabels(m, _) => a.WriteLabels? && FateAllowed(s, m, a.fate)
    case ReadingHealth(_, _) => a.ReadHealth?
    case WritingUpdate(m, _) => a.WriteStatus? && FateAllowed(s, m, a.fate)
    case CallingDelete(m) =>
      || (a.CallDelete? && DeleteAllowed(m, a.deleted))
      || (a.SkipDelete? && m.spec.Some? && m.Recorded().None?)
    case StrippingFinalizers(m) => a.StripFinalizers? && FateAllowed(s, m, a.fate)
  }

  predicate Enabled(s: State, a: Action) {
    EnvironmentEnabled(s, a) || ControllerEnabled(s, a)
  }

  /** Store a new version; an object being deleted goes with its last finalizer. */
  function Commit(s: State, m: Machine): State {
    var stored := m.(version := s.machine.version + 1);
    s.(machine := stored,
       versions := s.versions[stored.version := stored],
       present := !stored.deleting || stored.Finalized())
  }

  function Finish(s: State, result: Result): State {
    s.(pc := Idle(Returned(result)))
  }

  /** What follows reading the object (Reconcile, reconcileNormal, Exists). */
  function AfterRead(m: Machine): Pc {
    if m.deleting then CallingDelete(m)
    else if !m.current then AddingFinalizer(m)
    else if m.Recorded().None? then Gating(m)
    else CheckingExists(m)
  }

  function AfterGet(m: Machine, inst: Instance): Pc
    requires m.spec.Some?
  {
    if WithTopology(m.labels, inst, m.spec.value.instanceTypeId) != m.labels then WritingLabels(m, inst)
    else ReadingHealth(m, inst)
  }

  function AfterProviderId(m: Machine, inst: Instance): Option<Pc> {
    if m.spec.Some? && m.spec.value.dpuServices != [] then Some(DeployingDpu(m, inst)) else None
  }

  /** Record the instance that a call created although the caller never learns it. */
  function Lose(s: State, effect: Option<Id>): State {
    if effect.None? then s
    else s.(live := s.live + {effect.value}, born := s.born + {effect.value}, lost := s.lost + {effect.value})
  }

  function EnvironmentNext(s: State, a: Action): State
    requires EnvironmentEnabled(s, a)
  {
    match a
    case UserDelete => Commit(s, s.machine.(deleting := true))
    case UserEdit(spec, labels, providerId, foreign) =>
      Commit(s, s.machine.(spec := spec, labels := labels, providerId := providerId, foreign := foreign))
    case Vanish(id) => s.(live := s.live - {id})
    case Crash =>
      s.(pc := Idle(Crashed), lost := if s.pc.WritingCreated? then s.lost + {s.pc.inst.id} else s.lost)
  }

  /** A status write that takes effect replaces the whole status and appends its event. */
  function CommitStatus(s: State, m: Machine, event: Event): State {
    var s' := Commit(s, m.(status := Apply(m.status, event, s.cfg)));
    s'.(events := s.events + [event])
  }

  function ControllerNext(s: State, a: Action): State
    requires ControllerEnabled(s, a)
  {
    match s.pc
    case Idle(_) =>
      if a.Read? then s.(pc := AfterRead(s.versions[a.version]))
      else Finish(s, if a.ReadNotFound? then DONE else ERROR)
    case AddingFinalizer(m) =>
      var s' := if a.fate.Failed? then s else Commit(s, m.(current := true));
      Finish(s', if a.fate.Applied? then Result(1, false) else ERROR)
    case CheckingExists(m) =>
      (match Existence(a.reply)
       case Some(true) => s.(pc := CallingGet(m))
       case Some(false) => s.(pc := Gating(m))
       case None => Finish(s, RETRY))
    case Gating(m) =>
      if !a.admitted then Finish(s, RETRY)
      else if !Targeted(m.spec.value) then s.(pc := CallingCreate(m))
      else
        var alert := GateAlert(m.spec.value.machineId, a.replies, a.runs);
        if alert.None? then s.(pc := CallingCreate(m))
        else s.(pc := WritingBlock(m, Blocked(m.spec.value.machineId, alert.value, a.at)))
    case WritingBlock(m, event) =>
      Finish(if a.fate.Failed? then s else CommitStatus(s, m, event), RETRY)
    case CallingCreate(m) =>
      (match a.created
       case CreatedInstance(inst) =>
         s.(live := s.live + {inst.id}, born := s.born + {inst.id}, pc := WritingCreated(m, inst, Created(inst, a.at)))
       case CreateFailed(code, effect) => Finish(Lose(s, effect), CreateErrorResult(code))
       case CreateEmpty(effect) => Finish(Lose(s, effect), RETRY))
    case WritingCreated(m, inst, event) =>
      if a.fate.Failed? then Finish(s.(lost := s.lost + {inst.id}), RETRY)
      else
        var s' := CommitStatus(s, m, event);
        if a.fate.Applied? then s'.(pc := WritingProviderId(s'.machine, inst)) else Finish(s', RETRY)
    case WritingProviderId(m, inst) =>
      var s' := if a.fate.Failed? then s else Commit(s, m.(providerId := Some(a.text)));
      if !a.fate.Applied? then Finish(s', RETRY)
      else
        var next := AfterProviderId(s'.machine, inst);
        if next.Some? then s'.(pc := next.value) else Finish(s', Result(10, false))
    case DeployingDpu(_, _) => Finish(s, if a.deployed then Result(10, false) else RETRY)
    case CallingGet(m) =>
      if a.reply.Found? then s.(pc := AfterGet(m, a.reply.inst)) else Finish(s, RETRY)
    case WritingLabels(m, inst) =>
      var labels := if m.spec.Some? then WithTopology(m.labels, inst, m.spec.value.instanceTypeId) else m.labels;
      var s' := if a.fate.Failed? then s else Commit(s, m.(labels := labels));
      if a.fate.Applied? then s'.(pc := ReadingHealth(s'.machine, inst)) else Finish(s', RETRY)
    case ReadingHealth(m, inst) => s.(pc := WritingUpdate(m, Updated(inst, a.replies, a.at)))
    case WritingUpdate(m, event) =>
      var s' := if a.fate.Failed? then s else CommitStatus(s, m, event);
      Finish(s', if a.fate.Applied? then Result(RETRY_SECONDS, false) else RETRY)
    case CallingDelete(m) =>
      if a.SkipDelete? then s.(pc := StrippingFinalizers(m))
      else
        var live := if a.deleted.removes then s.live - {m.Recorded().value} else s.live;
        if Acknowledges(a.deleted) then
          s.(live := live, acked := s.acked + {m.Recorded().value}, pc := StrippingFinalizers(m))
        else Finish(s.(live := live), ERROR)
    case StrippingFinalizers(m) =>
      var s' := if a.fate.Failed? then s
                else Commit(s, m.(current := false, legacy := false)).(strippedAt := Some(s.machine.version + 1));
      Finish(s', if a.fate.Applied? then DONE else ERROR)
  }

  function Next(s: State, a: Action): State
    requires Enabled(s, a)
  {
    if EnvironmentEnabled(s, a) then EnvironmentNext(s, a) else ControllerNext(s, a)
  }

  // ---------- runs ----------

  /** A Machine as the controller first meets it: possibly already recording an
      instance (then under a finalizer), possibly being deleted. */
  ghost predicate Init(s: State) {
    && s.present && (s.machine.deleting ==> s.machine.Finalized())
    && s.versions == map[s.machine.version := s.machine]
    && s.pc == Idle(NotStarted)
    && s.live <= s.born
    && (s.machine.Recorded().Some? ==> s.machine.Recorded().value in s.born && (s.machine.current || s.machine.legacy))
    && (forall i :: i in s.live ==> s.machine.Recorded() == Some(i))
    && s.origin == s.machine.status && s.events == []
    && s.acked == {} && s.lost == {} && s.strippedAt == None
  }

  /** states[i] is taken to states[i + 1] by actions[i]. */
  ghost predicate Run(states: seq<State>, actions: seq<Action>) {
    && |states| == |actions| + 1
    && Init(states[0])
    && forall i :: 0 <= i < |actions| ==> Enabled(states[i], actions[i]) && states[i + 1] == Next(states[i], actions[i])
  }
}
