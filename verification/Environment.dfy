/** The world the controller runs in, as an object: API server, cloud and
    environment. Each method is one remote call or write of the controller; it
    lets the environment act first and then takes exactly one step of the
    protocol, so every execution of the controller is a run of that protocol. */
module Environment {
  import opened Options
  import opened Health
  import opened Provider
  import opened History
  import opened ProviderSpec
  import opened Topology
  import opened PreFlight
  import opened Protocol
  import opened Safety
  import opened Script
  import ProviderId
  import Uuid

  /** What the controller does after a write of the object, by outcome. */
  function AfterWrite(pc: Pc, ok: bool, stored: Machine): Pc {
    match pc
    case AddingFinalizer(_) => Idle(Returned(if ok then Result(1, false) else ERROR))
    case WritingBlock(_, _) => Idle(Returned(RETRY))
    case WritingCreated(_, inst, _) => if ok then WritingProviderId(stored, inst) else Idle(Returned(RETRY))
    case WritingProviderId(_, inst) =>
      if !ok then Idle(Returned(RETRY))
      else if AfterProviderId(stored, inst).Some? then AfterProviderId(stored, inst).value
      else Idle(Returned(Result(10, false)))
    case WritingLabels(_, inst) => if ok then ReadingHealth(stored, inst) else Idle(Returned(RETRY))
    case WritingUpdate(_, _) => Idle(Returned(if ok then Result(RETRY_SECONDS, false) else RETRY))
    case StrippingFinalizers(_) => Idle(Returned(if ok then DONE else ERROR))
    case _ => pc
  }

  /** What Exists goes on with. */
  function AfterAsk(m: Machine, reply: GetReply): Pc {
    match Existence(reply)
    case Some(true) => CallingGet(m)
    case Some(false) => Gating(m)
    case None => Idle(Returned(RETRY))
  }

  /** The object that the protocol expects each write to carry. */
  predicate ExpectedObject(pc: Pc, obj: Machine) {
    match pc
    case AddingFinalizer(m) => obj == m.(current := true)
    case WritingProviderId(m, _) => obj.providerId.Some? && obj == m.(providerId := obj.providerId)
    case WritingLabels(m, inst) =>
      m.spec.Some? && obj == m.(labels := WithTopology(m.labels, inst, m.spec.value.instanceTypeId))
    case StrippingFinalizers(m) => obj == m.(current := false, legacy := false)
    case _ => false
  }

  predicate ExpectedStatus(pc: Pc, obj: Machine, cfg: Config) {
    (pc.WritingBlock? || pc.WritingCreated? || pc.WritingUpdate?)
    && obj == pc.m.(status := Apply(pc.m.status, pc.event, cfg))
  }

  /** The protocol step that a write of the object takes. */
  function ActionFor(pc: Pc, obj: Machine, fate: Fate): Action
    requires ExpectedObject(pc, obj)
  {
    match pc
    case AddingFinalizer(_) => WriteFinalizer(fate)
    case WritingProviderId(_, _) => WriteProviderId(obj.providerId.value, fate)
    case WritingLabels(_, _) => WriteLabels(fate)
    case _ => StripFinalizers(fate)
  }

  /** A write of obj is a step of the protocol that goes on as AfterWrite says
      and, if it is confirmed, leaves obj stored under a new version. */
  ghost predicate Writes(s: State, a: Action, obj: Machine, fate: Fate, events: seq<Event>) {
    && ControllerEnabled(s, a) && !EnvironmentEnabled(s, a)
    && var s' := ControllerNext(s, a);
       && s'.cfg == s.cfg && s'.origin == s.origin && s'.events == s.events + events
       && s'.pc == AfterWrite(s.pc, fate.Applied?, s'.machine)
       && (fate.Applied? ==> s'.machine == obj.(version := s'.machine.version))
  }

  lemma FinalizerAction(s: State, fate: Fate)
    requires s.pc.AddingFinalizer? && FateAllowed(s, s.pc.m, fate)
    ensures Writes(s, WriteFinalizer(fate), s.pc.m.(current := true), fate, [])
  {
  }

  lemma ProviderIdAction(s: State, text: string, fate: Fate)
    requires s.pc.WritingProviderId? && FateAllowed(s, s.pc.m, fate)
    ensures Writes(s, WriteProviderId(text, fate), s.pc.m.(providerId := Some(text)), fate, [])
  {
  }

  lemma LabelsAction(s: State, labels: Labels, fate: Fate)
    requires s.pc.WritingLabels? && FateAllowed(s, s.pc.m, fate) && s.pc.m.spec.Some?
    requires labels == WithTopology(s.pc.m.labels, s.pc.inst, s.pc.m.spec.value.instanceTypeId)
    ensures Writes(s, WriteLabels(fate), s.pc.m.(labels := labels), fate, [])
  {
    LabelsShape(s, WriteLabels(fate), labels);
  }

  lemma StripAction(s: State, fate: Fate)
    requires s.pc.StrippingFinalizers? && FateAllowed(s, s.pc.m, fate)
    ensures Writes(s, StripFinalizers(fate), s.pc.m.(current := false, legacy := false), fate, [])
  {
  }

  lemma WriteAction(s: State, obj: Machine, fate: Fate)
    requires ExpectedObject(s.pc, obj) && FateAllowed(s, s.pc.m, fate)
    ensures Writes(s, ActionFor(s.pc, obj, fate), obj, fate, [])
  {
    match s.pc {
      case AddingFinalizer(_) => FinalizerAction(s, fate);
      case WritingProviderId(_, _) => ProviderIdAction(s, obj.providerId.value, fate);
      case WritingLabels(_, _) => LabelsAction(s, obj.labels, fate);
      case StrippingFinalizers(_) => StripAction(s, fate);
    }
  }

  lemma CreatedAction(s: State, status: MachineStatus, fate: Fate)
    requires s.pc.WritingCreated? && FateAllowed(s, s.pc.m, fate)
    requires status == Apply(s.pc.m.status, s.pc.event, s.cfg)
    ensures Writes(s, WriteStatus(fate), s.pc.m.(status := status), fate, EventIf(!fate.Failed?, s.pc.event))
  {
    RecordShape(s, WriteStatus(fate), status);
  }

  lemma RefreshAction(s: State, status: MachineStatus, fate: Fate)
    requires (s.pc.WritingBlock? || s.pc.WritingUpdate?) && FateAllowed(s, s.pc.m, fate)
    requires status == Apply(s.pc.m.status, s.pc.event, s.cfg)
    ensures Writes(s, WriteStatus(fate), s.pc.m.(status := status), fate, EventIf(!fate.Failed?, s.pc.event))
  {
    StatusShape(s, WriteStatus(fate), status);
  }

  /** The same for a status write. */
  lemma StatusAction(s: State, obj: Machine, fate: Fate)
    requires ExpectedStatus(s.pc, obj, s.cfg) && FateAllowed(s, s.pc.m, fate)
    ensures Writes(s, WriteStatus(fate), obj, fate, EventIf(!fate.Failed?, s.pc.event))
  {
    if s.pc.WritingCreated? {
      CreatedAction(s, obj.status, fate);
    } else {
      RefreshAction(s, obj.status, fate);
    }
  }

  /** An accepted status write was computed from what the history says is persisted. */
  lemma AcceptedIsCurrent(states: seq<State>, actions: seq<Action>, fate: Fate)
    requires Run(states, actions) && ControllerEnabled(states[|actions|], WriteStatus(fate)) && !fate.Failed?
    ensures var s := states[|actions|]; s.pc.m.status == Replay(s.origin, s.events, s.cfg)
  {
    ReachableInv(states, actions, |actions|);
    EffectiveWrite(states[|actions|], WriteStatus(fate));
  }

  lemma VersionIsItsOwn(states: seq<State>, actions: seq<Action>, v: nat)
    requires Run(states, actions) && v in states[|actions|].versions
    ensures states[|actions|].versions[v].version == v
  {
    ReachableInv(states, actions, |actions|);
  }

  lemma RunSnoc(states: seq<State>, actions: seq<Action>, a: Action)
    requires Run(states, actions) && Enabled(states[|actions|], a)
    ensures Run(states + [Next(states[|actions|], a)], actions + [a])
  {
  }

  /** The event that a step of the controller records. */
  function RecordedBy(s: State, a: Action): seq<Event>
    requires ControllerEnabled(s, a)
  {
    if a.WriteStatus? then EventIf(!a.fate.Failed?, s.pc.event) else []
  }

  lemma StepRecords(s: State, a: Action)
    requires ControllerEnabled(s, a)
    ensures var s' := ControllerNext(s, a);
            s'.cfg == s.cfg && s'.origin == s.origin && s'.events == s.events + RecordedBy(s, a)
  {
    if s.pc.Gating? {
      GateShape(s, a);
    } else if s.pc.CallingGet? {
      CallGetShape(s, a);
    }
  }

  lemma DisturbanceKeeps(s: State, a: Action)
    requires EnvironmentEnabled(s, a) && !a.Crash?
    ensures var s' := Next(s, a);
            && s'.pc == s.pc && s'.born == s.born
            && s'.cfg == s.cfg && s'.origin == s.origin && s'.events == s.events
  {
  }

  const FAILED_DELETE := DeleteReply(true, None, false)

  /** The steps of a run that the controller took itself. */
  ghost function Calls(states: seq<State>, actions: seq<Action>): seq<Action>
    requires |states| == |actions| + 1
  {
    if actions == [] then []
    else
      var n := |actions| - 1;
      Calls(states[..n + 1], actions[..n]) + if EnvironmentEnabled(states[n], actions[n]) then [] else [actions[n]]
  }

  lemma CallsSnoc(states: seq<State>, actions: seq<Action>, s: State, a: Action)
    requires |states| == |actions| + 1
    ensures Calls(states + [s], actions + [a])
            == Calls(states, actions) + if EnvironmentEnabled(states[|actions|], a) then [] else [a]
  {
    assert (states + [s])[..|actions| + 1] == states && (actions + [a])[..|actions|] == actions;
  }

  /** The run of the world so far: all steps, those that the controller took
      itself, and the events that its accepted status writes recorded. */
  datatype Log = Log(
    states: seq<State>,
    actions: seq<Action>,
    calls: seq<Action>,
    cfg: Config,
    origin: MachineStatus,
    events: seq<Event>)

  ghost predicate LogOf(log: Log, s: State) {
    && Run(log.states, log.actions) && s == log.states[|log.actions|]
    && log.calls == Calls(log.states, log.actions)
    && log.cfg == s.cfg && log.origin == s.origin && log.events == s.events
  }

  /** The run went on: by these calls of the controller and any steps of the
      environment, and these events were recorded. */
  ghost predicate Went(before: Log, after: Log, steps: seq<Action>, events: seq<Event>) {
    && before.states <= after.states && before.actions <= after.actions
    && after.calls == before.calls + steps && after.events == before.events + events
    && after.cfg == before.cfg && after.origin == before.origin
  }

  /** The same for a stretch that includes this status write, if any. An
      accepted write was computed from the status persisted until then. */
  ghost predicate Wrote(before: Log, after: Log, steps: seq<Action>, work: Option<Work>) {
    && Went(before, after, steps, EventsOf(work))
    && (work.Some? && work.value.accepted ==> work.value.from == Replay(before.origin, before.events, before.cfg))
  }

  lemma WentOn(a: Log, b: Log, c: Log, first: seq<Action>, then_: seq<Action>, early: seq<Event>, late: seq<Event>)
    requires Went(a, b, first, early) && Went(b, c, then_, late)
    ensures Went(a, c, first + then_, early + late)
  {
  }

  lemma WroteLater(a: Log, b: Log, c: Log, first: seq<Action>, then_: seq<Action>, work: Option<Work>)
    requires Went(a, b, first, []) && Wrote(b, c, then_, work)
    ensures Wrote(a, c, first + then_, work)
  {
    WentOn(a, b, c, first, then_, [], EventsOf(work));
    assert [] + EventsOf(work) == EventsOf(work);
    assert b.events == a.events;
  }

  lemma WroteEarlier(a: Log, b: Log, c: Log, first: seq<Action>, then_: seq<Action>, work: Option<Work>)
    requires Wrote(a, b, first, work) && Went(b, c, then_, [])
    ensures Wrote(a, c, first + then_, work)
  {
    WentOn(a, b, c, first, then_, EventsOf(work), []);
    assert EventsOf(work) + [] == EventsOf(work);
  }

  lemma WroteNothing(a: Log, b: Log, steps: seq<Action>)
    requires Went(a, b, steps, [])
    ensures Wrote(a, b, steps, None)
  {
  }

  class World {
    var s: State
    var client: bool     // the credentials lead to a cloud client
    var targeting: bool  // the tenant may target a machine
    ghost var log: Log

    ghost predicate Valid()
      reads this`s, this`log
    {
      LogOf(log, s)
    }

    constructor (start: State)
      requires Init(start)
      ensures Valid() && s == start
    {
      s, client, targeting := start, false, false;
      log := Log([start], [], [], start.cfg, start.origin, start.events);
    }

    /** getNicoClient. */
    method GetClient() returns (ok: bool)
      modifies this`client
      ensures ok == client
    {
      client := *;
      ok := client;
    }

    /** hasTargetedInstanceCreation. */
    method GetTargeting() returns (ok: bool)
      modifies this`targeting
      ensures ok == targeting
    {
      targeting := *;
      ok := targeting;
    }

    method Step(a: Action)
      requires Valid() && Enabled(s, a)
      modifies this`s, this`log
      ensures Valid() && s == Next(old(s), a)
      ensures log.states == old(log.states) + [s] && log.actions == old(log.actions) + [a]
      ensures log.calls == old(log.calls) + if EnvironmentEnabled(old(s), a) then [] else [a]
    {
      RunSnoc(log.states, log.actions, a);
      CallsSnoc(log.states, log.actions, Next(s, a), a);
      var calls := if EnvironmentEnabled(s, a) then [] else [a];
      s := Next(s, a);
      log := Log(log.states + [s], log.actions + [a], log.calls + calls, s.cfg, s.origin, s.events);
    }

    /** A step of the controller. */
    method Act(a: Action)
      requires Valid() && ControllerEnabled(s, a) && !EnvironmentEnabled(s, a)
      modifies this`s, this`log
      ensures Valid() && s == ControllerNext(old(s), a) && Went(old(log), log, [a], RecordedBy(old(s), a))
    {
      StepRecords(s, a);
      Step(a);
    }

    /** A step of the environment that leaves the process up. */
    method Disturb(a: Action)
      requires Valid() && EnvironmentEnabled(s, a) && !a.Crash?
      modifies this`s, this`log
      ensures Valid() && Went(old(log), log, [], []) && log.events == old(log.events)
      ensures s.pc == old(s.pc) && s.born == old(s.born)
    {
      DisturbanceKeeps(s, a);
      Step(a);
    }

    /** Any number of them. */
    method Interfere()
      requires Valid()
      modifies this`s, this`log
      ensures Valid() && Went(old(log), log, [], []) && log.events == old(log.events)
      ensures s.pc == old(s.pc) && s.born == old(s.born)
    {
      var n: nat := *;
      while n > 0
        invariant Valid() && Went(old(log), log, [], []) && log.events == old(log.events)
        invariant s.pc == old(s.pc) && s.born == old(s.born)
      {
        var a: Action := *;
        if EnvironmentEnabled(s, a) && !a.Crash? {
          Disturb(a);
        }
        n := n - 1;
      }
    }

    /** client.Get: any version the store has held, or an error. */
    method Get() returns (found: Option<Machine>, gone: bool, ghost call: Action)
      requires Valid() && s.pc.Idle?
      modifies this`s, this`log
      ensures Valid() && Went(old(log), log, [call], [])
      ensures call == if found.Some? then Read(found.value.version) else if gone then ReadNotFound else ReadFailed
      ensures found.Some? ==> found.value.version in s.versions && s.versions[found.value.version] == found.value
      ensures s.pc == if found.Some? then AfterRead(found.value) else Idle(Returned(if gone then DONE else ERROR))
    {
      Interfere();
      var version: nat := *;
      gone := *;
      if version in s.versions {
        VersionIsItsOwn(log.states, log.actions, version);
        found, gone := Some(s.versions[version]), false;
      } else {
        found, gone := None, gone && !s.present;
      }
      var a := if found.Some? then Read(version) else if gone then ReadNotFound else ReadFailed;
      call := a;
      Act(a);
    }

    /** The reply to a lookup arrives. */
    method Answer(m: Machine, reply: GetReply)
      requires Valid() && (s.pc == CheckingExists(m) || s.pc == CallingGet(m)) && ReplyAllowed(s, m, reply)
      modifies this`s, this`log
      ensures Valid() && Went(old(log), log,
                              [if old(s.pc).CheckingExists? then AskExists(reply) else CallGet(reply)], [])
      ensures s.live == old(s.live)
      ensures s.pc == if old(s.pc).CheckingExists? then AfterAsk(m, reply)
                      else if reply.Found? then AfterGet(m, reply.inst) else Idle(Returned(RETRY))
    {
      if s.pc.CheckingExists? {
        Act(AskExists(reply));
      } else {
        CallGetShape(s, CallGet(reply));
        Act(CallGet(reply));
      }
    }

    /** GetInstance, as Exists and Update use it. */
    method GetInstance(m: Machine) returns (reply: GetReply)
      requires Valid() && (s.pc == CheckingExists(m) || s.pc == CallingGet(m)) && m.spec.Some?
      modifies this`s, this`log
      ensures Valid() && Went(old(log), log,
                              [if old(s.pc).CheckingExists? then AskExists(reply) else CallGet(reply)], [])
      ensures reply.NoData? || reply == GetFailed(Some(404)) ==> m.Recorded().Some? && m.Recorded().value !in s.live
      ensures s.pc == if old(s.pc).CheckingExists? then AfterAsk(m, reply)
                      else if reply.Found? then AfterGet(m, reply.inst) else Idle(Returned(RETRY))
    {
      Interfere();
      reply := *;
      if !ReplyAllowed(s, m, reply) {
        reply := GetFailed(None);
      }
      Answer(m, reply);
    }

    /** Giving up before the instance lookup of Exists or Update, with cause. */
    method FailLookup()
      requires Valid() && (s.pc.CheckingExists? || s.pc.CallingGet?)
      requires s.pc.m.spec.None? || s.pc.m.Recorded().None? || !client
      modifies this`s, this`log
      ensures Valid() && Went(old(log), log,
                              [if old(s.pc).CheckingExists? then AskExists(GetFailed(None))
                               else CallGet(GetFailed(None))], [])
      ensures s.pc == Idle(Returned(RETRY))
    {
      Interfere();
      Answer(s.pc.m, GetFailed(None));
    }

    /** The decision in front of CreateInstance, taken on these answers. */
    method PassGate(m: Machine, admitted: bool, replies: Replies, runs: Option<seq<ValidationRun>>, at: int)
      requires Valid() && s.pc == Gating(m)
      requires admitted <==> Admits(m.spec, client, targeting)
      modifies this`s, this`log
      ensures Valid() && Went(old(log), log, [Gate(admitted, replies, runs, at)], [])
      ensures !admitted ==> s.pc == Idle(Returned(RETRY))
      ensures admitted ==>
                var alert := if Targeted(m.spec.value) then GateAlert(m.spec.value.machineId, replies, runs) else None;
                s.pc == if alert.None? then CallingCreate(m)
                        else WritingBlock(m, Blocked(m.spec.value.machineId, alert.value, at))
    {
      Interfere();
      Act(Gate(admitted, replies, runs, at));
    }

    method CreateInstance(m: Machine, req: Request, at: int) returns (reply: CreateReply)
      requires Valid() && s.pc == CallingCreate(m)
      requires m.spec.Some? && Requests(req.header.name, m.spec.value, req)
      modifies this`s, this`log
      ensures Valid() && Went(old(log), log, [CallCreate(reply, at)], [])
      ensures reply.CreatedInstance? ==> reply.inst.id in s.live && reply.inst.id !in old(s.born)
      ensures s.pc == match reply
                      case CreatedInstance(inst) => WritingCreated(m, inst, Created(inst, at))
                      case CreateFailed(code, _) => Idle(Returned(CreateErrorResult(code)))
                      case CreateEmpty(_) => Idle(Returned(RETRY))
    {
      Interfere();
      reply := *;
      if !CreateAllowed(s, reply) {
        reply := CreateFailed(None, None);
      }
      Act(CallCreate(reply, at));
    }

    method DeployServices(m: Machine, inst: Instance) returns (ok: bool)
      requires Valid() && s.pc == DeployingDpu(m, inst)
      modifies this`s, this`log
      ensures Valid() && Went(old(log), log, [DeployDpu(ok)], [])
      ensures s.pc == Idle(Returned(if ok then Result(10, false) else RETRY))
    {
      Interfere();
      ok := *;
      Act(DeployDpu(ok));
    }

    /** The health answers that an Update works with. */
    method GetHealth(m: Machine, inst: Instance, at: int) returns (replies: Replies)
      requires Valid() && s.pc == ReadingHealth(m, inst)
      modifies this`s, this`log
      ensures Valid() && Went(old(log), log, [ReadHealth(replies, at)], [])
              && s.pc == WritingUpdate(m, Updated(inst, replies, at))
    {
      Interfere();
      replies := *;
      Act(ReadHealth(replies, at));
    }

    method DeleteInstance(m: Machine) returns (reply: DeleteReply)
      requires Valid() && s.pc == CallingDelete(m) && m.spec.Some? && m.Recorded().Some?
      modifies this`s, this`log
      ensures Valid() && Went(old(log), log, [CallDelete(reply)], [])
      ensures s.pc == if Acknowledges(reply) then StrippingFinalizers(m) else Idle(Returned(ERROR))
      ensures s.pc.StrippingFinalizers? <==>
              if reply.error then reply.code == Some(404)
              else reply.code == Some(200) || reply.code == Some(202)
                   || reply.code == Some(204) || reply.code == Some(404)
      ensures Acknowledges(reply) ==> m.Recorded().value in s.acked
    {
      Interfere();
      reply := *;
      if !DeleteAllowed(m, reply) {
        reply := FAILED_DELETE;
      }
      Act(CallDelete(reply));
    }

    method NothingToDelete(m: Machine)
      requires Valid() && s.pc == CallingDelete(m) && m.spec.Some? && m.Recorded().None?
      modifies this`s, this`log
      ensures Valid() && Went(old(log), log, [SkipDelete], []) && s.pc == StrippingFinalizers(m)
    {
      Interfere();
      Act(SkipDelete);
    }

    method FailDelete(m: Machine)
      requires Valid() && s.pc == CallingDelete(m)
      requires m.spec.None? || (m.Recorded().Some? && !client)
      modifies this`s, this`log
      ensures Valid() && Went(old(log), log, [CallDelete(FAILED_DELETE)], []) && s.pc == Idle(Returned(ERROR))
    {
      Interfere();
      Act(CallDelete(FAILED_DELETE));
    }

    /** A write of metadata and spec, as the store sees it. */
    method Put(obj: Machine) returns (fate: Fate)
      requires Valid() && ExpectedObject(s.pc, obj)
      modifies this`s, this`log
      ensures Valid() && Went(old(log), log, [ActionFor(old(s.pc), obj, fate)], [])
      ensures s.pc == AfterWrite(old(s.pc), fate.Applied?, s.machine)
      ensures fate.Applied? ==> s.machine == obj.(version := s.machine.version)
    {
      Interfere();
      fate := ChooseFate();
      WriteAction(s, obj, fate);
      Act(ActionFor(s.pc, obj, fate));
    }

    /** client.Update of metadata and spec. On success the object in memory
        becomes the stored one; on failure the write may still have taken effect. */
    method Update(obj: MachineObject) returns (ok: bool, ghost fate: Fate)
      requires Valid() && ExpectedObject(s.pc, obj.value)
      modifies this`s, this`log, obj
      ensures Valid() && Went(old(log), log, [ActionFor(old(s.pc), old(obj.value), fate)], [])
              && (ok <==> fate.Applied?)
      ensures !ok ==> obj.value == old(obj.value)
      ensures ok ==> obj.value == s.machine && obj.value == old(obj.value).(version := obj.value.version)
      ensures s.pc == AfterWrite(old(s.pc), ok, s.machine)
    {
      var outcome := Put(obj.value);
      ok, fate := outcome.Applied?, outcome;
      if ok {
        obj.value := s.machine;
      }
    }

    /** How a write of the object in memory goes. */
    method ChooseFate() returns (fate: Fate)
      requires !s.pc.Idle?
      ensures FateAllowed(s, s.pc.m, fate)
    {
      fate := *;
      if !FateAllowed(s, s.pc.m, fate) {
        fate := Failed;
      }
    }

    /** Giving up before the write of the provider ID. */
    method FailProviderId(alt: ProviderId.AltUuid)
      requires Valid() && s.pc.WritingProviderId? && Uuid.Parse(s.pc.inst.id, alt) == None
      modifies this`s, this`log
      ensures Valid() && Went(old(log), log, [WriteProviderId("", Failed)], []) && s.pc == Idle(Returned(RETRY))
    {
      Interfere();
      Act(WriteProviderId("", Failed));
    }

    /** A write of the status subresource, as the store sees it. */
    method PutStatus(obj: Machine) returns (fate: Fate)
      requires Valid() && ExpectedStatus(s.pc, obj, s.cfg)
      modifies this`s, this`log
      ensures Valid() && Went(old(log), log, [WriteStatus(fate)], EventIf(!fate.Failed?, old(s.pc).event))
      ensures !fate.Failed? ==> old(s.pc).m.status == Replay(log.origin, old(log.events), log.cfg)
      ensures s.pc == AfterWrite(old(s.pc), fate.Applied?, s.machine)
      ensures fate.Applied? ==> s.machine == obj.(version := s.machine.version)
    {
      Interfere();
      fate := ChooseFate();
      StatusAction(s, obj, fate);
      if !fate.Failed? {
        AcceptedIsCurrent(log.states, log.actions, fate);
      }
      Act(WriteStatus(fate));
    }

    /** client.Status().Update: the whole status subresource. */
    method UpdateStatus(obj: MachineObject) returns (ok: bool, ghost fate: Fate)
      requires Valid() && ExpectedStatus(s.pc, obj.value, s.cfg)
      modifies this`s, this`log, obj
      ensures Valid() && Went(old(log), log, [WriteStatus(fate)], EventIf(!fate.Failed?, old(s.pc).event))
              && (ok <==> fate.Applied?)
      ensures !fate.Failed? ==> old(s.pc).m.status == Replay(log.origin, old(log.events), log.cfg)
      ensures !ok ==> obj.value == old(obj.value)
      ensures ok ==> obj.value == s.machine && obj.value == old(obj.value).(version := obj.value.version)
      ensures s.pc == AfterWrite(old(s.pc), ok, s.machine)
    {
      var outcome := PutStatus(obj.value);
      ok, fate := outcome.Applied?, outcome;
      if ok {
        obj.value := s.machine;
      }
    }
  }

  /** The Machine object that a reconcile holds in memory and edits in place. */
  class MachineObject {
    var value: Machine

    constructor (value: Machine)
      ensures this.value == value
    {
      this.value := value;
    }
  }
}
