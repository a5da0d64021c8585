/** Safety of the reconcile protocol in every reachable state. */
module Safety {
  import opened Options
  import opened Provider
  import opened History
  import opened Protocol
  import opened Topology

  // ---------- the invariant ----------

  function MemoryObject(pc: Pc): Option<Machine> {
    if pc.Idle? then None else Some(pc.m)
  }

  /** The store holds every version it has had, and the controller holds one of them. */
  ghost predicate StoreOk(s: State) {
    && s.machine.version in s.versions && s.versions[s.machine.version] == s.machine
    && (forall v :: v in s.versions ==> v <= s.machine.version && s.versions[v].version == v)
    && (MemoryObject(s.pc).Some? ==> var m := MemoryObject(s.pc).value;
        m.version in s.versions && s.versions[m.version] == m)
    && (s.present <==> !s.machine.deleting || s.machine.Finalized())
  }

  /** Deletion is for good, and only the strip takes the controller's finalizers away. */
  ghost predicate FinalizersOk(s: State) {
    && (forall v :: v in s.versions && s.versions[v].deleting ==> s.machine.deleting)
    && match s.strippedAt
       case None =>
         forall v :: v in s.versions ==>
           (s.versions[v].current ==> s.machine.current) && (s.versions[v].legacy ==> s.machine.legacy)
       case Some(at) =>
         && s.machine.deleting && at <= s.machine.version
         && forall v :: v in s.versions && v >= at ==> !s.versions[v].current && !s.versions[v].legacy
  }

  predicate Creating(pc: Pc) {
    pc.Gating? || pc.WritingBlock? || pc.CallingCreate? || pc.WritingCreated?
  }

  predicate Normal(pc: Pc) {
    !pc.Idle? && !pc.AddingFinalizer? && !pc.CallingDelete? && !pc.StrippingFinalizers?
  }

  /** What each point of a reconcile knows about the object it holds. */
  ghost predicate PcOk(s: State) {
    && (Normal(s.pc) ==> s.pc.m.current && !s.pc.m.deleting)
    && (s.pc.AddingFinalizer? ==> !s.pc.m.deleting)
    && (s.pc.CallingDelete? || s.pc.StrippingFinalizers? ==> s.pc.m.deleting)
    && (Creating(s.pc) && s.pc.m.Recorded().Some? ==> s.pc.m.Recorded().value !in s.live)
    && (s.pc.WritingCreated? ==> s.pc.event.Created? && s.pc.event.inst == s.pc.inst && s.pc.inst.id in s.born)
    && (s.pc.WritingBlock? ==> s.pc.event.Blocked?)
    && (s.pc.WritingUpdate? ==> s.pc.event.Updated?)
    && (s.pc.StrippingFinalizers? && s.pc.m.Recorded().Some? ==> s.pc.m.Recorded().value in s.acked)
  }

  /** An instance whose CreateInstance was answered and whose status write is due. */
  predicate InFlight(s: State, id: Id) {
    s.pc.WritingCreated? && s.pc.inst.id == id
  }

  ghost predicate InstancesOk(s: State) {
    && s.live <= s.born
    && (forall v :: v in s.versions && s.versions[v].Recorded().Some? ==> s.versions[v].Recorded().value in s.born)
    && (forall id :: id in s.live ==>
          s.machine.Recorded() == Some(id) || id in s.acked || id in s.lost || InFlight(s, id))
    && (s.machine.Recorded().Some? ==>
          s.machine.current || s.machine.legacy || s.machine.Recorded().value in s.acked)
  }

  ghost predicate HistoryOk(s: State) {
    s.machine.status == Replay(s.origin, s.events, s.cfg)
  }

  ghost predicate Inv(s: State) {
    StoreOk(s) && FinalizersOk(s) && PcOk(s) && InstancesOk(s) && HistoryOk(s)
  }

  // ---------- it holds in every reachable state ----------

  lemma InitInv(s: State)
    requires Init(s)
    ensures Inv(s)
  {
  }

  /** The invariant without what the controller knows. */
  ghost predicate WorldOk(s: State) {
    StoreOk(s.(pc := Idle(NotStarted))) && FinalizersOk(s) && InstancesOk(s)
  }

  /** A write that takes effect finds in memory exactly what the store holds. */
  lemma MemoryIsCurrent(s: State, m: Machine)
    requires StoreOk(s) && MemoryObject(s.pc) == Some(m) && m.version == s.machine.version
    ensures m == s.machine
  {
  }

  /** Storing a new version, as every write but the strip and the recorded Create does. */
  lemma CommitKeepsWorld(s: State, m: Machine)
    requires WorldOk(s)
    requires s.machine.deleting ==> m.deleting
    requires (s.machine.current ==> m.current) && (s.machine.legacy ==> m.legacy)
    requires s.strippedAt.Some? ==> !m.current && !m.legacy
    requires m.Recorded() == s.machine.Recorded()
    ensures WorldOk(Commit(s, m))
  {
    var s' := Commit(s, m);
    assert forall v :: v in s'.versions ==> v == s'.machine.version || v in s.versions;
  }

  lemma UserDeleteKeepsInv(s: State)
    requires Inv(s) && EnvironmentEnabled(s, UserDelete)
    ensures Inv(EnvironmentNext(s, UserDelete))
  {
    CommitKeepsWorld(s, s.machine.(deleting := true));
  }

  lemma UserEditKeepsInv(s: State, a: Action)
    requires Inv(s) && a.UserEdit? && EnvironmentEnabled(s, a)
    ensures Inv(EnvironmentNext(s, a))
  {
    CommitKeepsWorld(s, s.machine.(spec := a.spec, labels := a.labels,
                                   providerId := a.providerId, foreign := a.foreign));
  }

  lemma VanishKeepsInv(s: State, id: Id)
    requires Inv(s) && id in s.live
    ensures Inv(EnvironmentNext(s, Vanish(id)))
  {
  }

  lemma CrashKeepsInv(s: State)
    requires Inv(s) && EnvironmentEnabled(s, Crash)
    ensures Inv(EnvironmentNext(s, Crash))
  {
  }

  lemma EnvironmentKeepsInv(s: State, a: Action)
    requires Inv(s) && EnvironmentEnabled(s, a)
    ensures Inv(EnvironmentNext(s, a))
  {
    match a {
      case UserDelete => UserDeleteKeepsInv(s);
      case UserEdit(_, _, _, _) => UserEditKeepsInv(s, a);
      case Vanish(id) => VanishKeepsInv(s, id);
      case Crash => CrashKeepsInv(s);
    }
  }

  // ---------- controller steps without a store write ----------

  /** A step that only moves the controller on. */
  lemma MoveKeepsInv(s: State, s': State)
    requires Inv(s) && !s.pc.WritingCreated? && s' == s.(pc := s'.pc)
    requires s'.pc.Idle? || (!s.pc.Idle? && s'.pc.m == s.pc.m)
    requires PcOk(s')
    ensures Inv(s')
  {
  }

  lemma ReadKeepsInv(s: State, a: Action)
    requires Inv(s) && s.pc.Idle? && ControllerEnabled(s, a)
    ensures Inv(ControllerNext(s, a))
  {
  }

  lemma AskExistsKeepsInv(s: State, a: Action)
    requires Inv(s) && s.pc.CheckingExists? && ControllerEnabled(s, a)
    ensures Inv(ControllerNext(s, a))
  {
    MoveKeepsInv(s, ControllerNext(s, a));
  }

  lemma CallGetShape(s: State, a: Action)
    requires s.pc.CallingGet? && ControllerEnabled(s, a)
    ensures var s' := ControllerNext(s, a);
            s' == s.(pc := s'.pc)
            && (s'.pc.Idle? || ((s'.pc.WritingLabels? || s'.pc.ReadingHealth?) && s'.pc.m == s.pc.m))
  {
  }

  lemma CallGetKeepsInv(s: State, a: Action)
    requires Inv(s) && s.pc.CallingGet? && ControllerEnabled(s, a)
    ensures Inv(ControllerNext(s, a))
  {
    var s' := ControllerNext(s, a);
    CallGetShape(s, a);
    MoveKeepsInv(s, s');
  }

  lemma DeployKeepsInv(s: State, a: Action)
    requires Inv(s) && s.pc.DeployingDpu? && ControllerEnabled(s, a)
    ensures Inv(ControllerNext(s, a))
  {
    MoveKeepsInv(s, ControllerNext(s, a));
  }

  lemma ReadHealthKeepsInv(s: State, a: Action)
    requires Inv(s) && s.pc.ReadingHealth? && ControllerEnabled(s, a)
    ensures Inv(ControllerNext(s, a))
  {
    MoveKeepsInv(s, ControllerNext(s, a));
  }

  lemma GateShape(s: State, a: Action)
    requires s.pc.Gating? && ControllerEnabled(s, a)
    ensures var s' := ControllerNext(s, a);
            && s' == s.(pc := s'.pc)
            && (s'.pc.Idle? || (s'.pc.CallingCreate? && s'.pc.m == s.pc.m)
                || (s'.pc.WritingBlock? && s'.pc.m == s.pc.m && s'.pc.event.Blocked?))
  {
  }

  lemma GateKeepsInv(s: State, a: Action)
    requires Inv(s) && s.pc.Gating? && ControllerEnabled(s, a)
    ensures Inv(ControllerNext(s, a))
  {
    var s' := ControllerNext(s, a);
    GateShape(s, a);
    MoveKeepsInv(s, s');
  }

  lemma LoseKeepsInv(s: State, effect: Option<Id>, result: Result)
    requires Inv(s) && s.pc.CallingCreate? && FreshEffect(s, effect)
    ensures Inv(Finish(Lose(s, effect), result))
  {
  }

  lemma BirthKeepsInv(s: State, inst: Instance, at: int)
    requires Inv(s) && s.pc.CallingCreate? && inst.id !in s.born
    ensures Inv(s.(live := s.live + {inst.id}, born := s.born + {inst.id},
                   pc := WritingCreated(s.pc.m, inst, Created(inst, at))))
  {
  }

  lemma CreateKeepsInv(s: State, a: Action)
    requires Inv(s) && s.pc.CallingCreate? && ControllerEnabled(s, a)
    ensures Inv(ControllerNext(s, a))
  {
    match a.created {
      case CreatedInstance(inst) => BirthKeepsInv(s, inst, a.at);
      case CreateFailed(code, effect) => LoseKeepsInv(s, effect, CreateErrorResult(code));
      case CreateEmpty(effect) => LoseKeepsInv(s, effect, RETRY);
    }
  }

  /** The cloud acknowledges the delete, or fails it, and may remove the instance. */
  lemma AcknowledgeKeepsInv(s: State, id: Id, live: set<Id>, acknowledged: bool)
    requires Inv(s) && s.pc.CallingDelete? && s.pc.m.Recorded() == Some(id)
    requires live == s.live || live == s.live - {id}
    ensures Inv(if acknowledged then s.(live := live, acked := s.acked + {id}, pc := StrippingFinalizers(s.pc.m))
                else Finish(s.(live := live), ERROR))
  {
  }

  lemma DeleteKeepsInv(s: State, a: Action)
    requires Inv(s) && s.pc.CallingDelete? && ControllerEnabled(s, a)
    ensures Inv(ControllerNext(s, a))
  {
    var s' := ControllerNext(s, a);
    if a.CallDelete? && (Acknowledges(a.deleted) || a.deleted.removes) {
      AcknowledgeKeepsInv(s, s.pc.m.Recorded().value, s'.live, Acknowledges(a.deleted));
    } else {
      MoveKeepsInv(s, s');
    }
  }

  // ---------- controller steps that write ----------

  /** A write of anything but status.instanceId and the finalizers' removal, from
      the object in memory, whatever the controller does next. */
  lemma WriteKeepsInv(s: State, m': Machine, s': State)
    requires Inv(s) && MemoryObject(s.pc).Some? && !s.pc.WritingCreated?
    requires s.present && s.pc.m.version == s.machine.version
    requires m'.deleting == s.pc.m.deleting && m'.Recorded() == s.pc.m.Recorded()
    requires (s.pc.m.current ==> m'.current) && (s.pc.m.legacy ==> m'.legacy)
    requires !m'.deleting || (m'.current == s.pc.m.current && m'.legacy == s.pc.m.legacy)
    requires var w := Commit(s, m'); s' == w.(pc := s'.pc, events := s'.events)
    requires HistoryOk(s') && PcOk(s') && (s'.pc.Idle? || s'.pc.m == s'.machine)
    ensures Inv(s')
  {
    MemoryIsCurrent(s, s.pc.m);
    CommitKeepsWorld(s, m');
  }

  /** The same for a write of labels or provider ID. */
  lemma MetaWriteKeepsInv(s: State, m': Machine, s': State)
    requires Inv(s) && (s.pc.WritingLabels? || s.pc.WritingProviderId?)
    requires s.present && s.pc.m.version == s.machine.version
    requires m' == s.pc.m.(labels := m'.labels, providerId := m'.providerId)
    requires s' == Commit(s, m').(pc := s'.pc)
    requires s'.pc.Idle? || ((s'.pc.ReadingHealth? || s'.pc.DeployingDpu?) && s'.pc.m == s'.machine)
    ensures Inv(s')
  {
    MemoryIsCurrent(s, s.pc.m);
    WriteKeepsInv(s, m', s');
  }

  lemma AddFinalizerKeepsInv(s: State, a: Action)
    requires Inv(s) && s.pc.AddingFinalizer? && ControllerEnabled(s, a)
    ensures Inv(ControllerNext(s, a))
  {
    var s' := ControllerNext(s, a);
    if a.fate.Failed? {
      MoveKeepsInv(s, s');
    } else {
      MemoryIsCurrent(s, s.pc.m);
      WriteKeepsInv(s, s.pc.m.(current := true), s');
    }
  }

  lemma ProviderIdShape(s: State, a: Action)
    requires s.pc.WritingProviderId? && ControllerEnabled(s, a)
    ensures var s' := ControllerNext(s, a);
            && (a.fate.Failed? ==> s' == s.(pc := Idle(Returned(RETRY))))
            && (!a.fate.Failed? ==> s' == Commit(s, s.pc.m.(providerId := Some(a.text))).(pc := s'.pc))
            && (s'.pc.Idle? || (a.fate.Applied? && s'.pc.DeployingDpu? && s'.pc.m == s'.machine))
  {
  }

  lemma ProviderIdKeepsInv(s: State, a: Action)
    requires Inv(s) && s.pc.WritingProviderId? && ControllerEnabled(s, a)
    ensures Inv(ControllerNext(s, a))
  {
    var s' := ControllerNext(s, a);
    ProviderIdShape(s, a);
    if a.fate.Failed? {
      MoveKeepsInv(s, s');
    } else {
      MetaWriteKeepsInv(s, s.pc.m.(providerId := Some(a.text)), s');
    }
  }

  lemma LabelsShape(s: State, a: Action, labels: Labels)
    requires s.pc.WritingLabels? && ControllerEnabled(s, a)
    requires labels == if s.pc.m.spec.Some? then
                       WithTopology(s.pc.m.labels, s.pc.inst, s.pc.m.spec.value.instanceTypeId)
                       else s.pc.m.labels
    ensures var s' := ControllerNext(s, a);
            && (a.fate.Failed? ==> s' == s.(pc := Idle(Returned(RETRY))))
            && (!a.fate.Failed? ==> s' == Commit(s, s.pc.m.(labels := labels)).(pc := s'.pc))
            && (s'.pc.Idle? || (a.fate.Applied? && s'.pc.ReadingHealth? && s'.pc.m == s'.machine))
  {
  }

  lemma LabelsKeepInv(s: State, a: Action)
    requires Inv(s) && s.pc.WritingLabels? && ControllerEnabled(s, a)
    ensures Inv(ControllerNext(s, a))
  {
    var s' := ControllerNext(s, a);
    var labels := if s.pc.m.spec.Some? then WithTopology(s.pc.m.labels, s.pc.inst, s.pc.m.spec.value.instanceTypeId)
                  else s.pc.m.labels;
    LabelsShape(s, a, labels);
    if a.fate.Failed? {
      MoveKeepsInv(s, s');
    } else {
      MetaWriteKeepsInv(s, s.pc.m.(labels := labels), s');
    }
  }

  /** Only a recorded Create changes the recorded instance, and it leaves the failure alone. */
  lemma ApplyRecords(status: MachineStatus, e: Event, cfg: Config)
    ensures Apply(status, e, cfg).provider.instanceId
            == if e.Created? then Some(e.inst.id) else status.provider.instanceId
    ensures e.Created? ==> Apply(status, e, cfg).failure == status.failure
  {
  }

  /** A status write that takes effect extends the replayed history by its event. */
  lemma CommitStatusReplays(s: State, m: Machine, event: Event)
    requires HistoryOk(s) && m == s.machine
    ensures HistoryOk(CommitStatus(s, m, event))
    ensures CommitStatus(s, m, event).machine.Recorded() == if event.Created? then Some(event.inst.id) else m.Recorded()
  {
    ApplyRecords(m.status, event, s.cfg);
    ReplayOne(s.origin, s.events, event, s.cfg);
  }

  lemma StatusShape(s: State, a: Action, status: MachineStatus)
    requires (s.pc.WritingBlock? || s.pc.WritingUpdate?) && ControllerEnabled(s, a)
    requires status == Apply(s.pc.m.status, s.pc.event, s.cfg)
    ensures var s' := ControllerNext(s, a);
            && s'.pc.Idle?
            && (a.fate.Failed? ==> s' == s.(pc := s'.pc))
            && (!a.fate.Failed? ==>
                  && s' == CommitStatus(s, s.pc.m, s.pc.event).(pc := s'.pc)
                  && s' == Commit(s, s.pc.m.(status := status)).(pc := s'.pc, events := s.events + [s.pc.event]))
  {
  }

  /** The status write of an Update or of a blocked Create takes effect. */
  lemma StatusCommitKeepsInv(s: State, status: MachineStatus, s': State)
    requires Inv(s) && (s.pc.WritingBlock? || s.pc.WritingUpdate?) && s.present && s.pc.m.version == s.machine.version
    requires status.provider.instanceId == s.pc.m.Recorded()
    requires s' == Commit(s, s.pc.m.(status := status)).(pc := s'.pc, events := s'.events) && s'.pc.Idle?
    requires HistoryOk(s')
    ensures Inv(s')
  {
    MemoryIsCurrent(s, s.pc.m);
    WriteKeepsInv(s, s.pc.m.(status := status), s');
  }

  lemma StatusWriteKeepsInv(s: State, a: Action)
    requires Inv(s) && (s.pc.WritingBlock? || s.pc.WritingUpdate?) && ControllerEnabled(s, a)
    ensures Inv(ControllerNext(s, a))
  {
    var s' := ControllerNext(s, a);
    var status := Apply(s.pc.m.status, s.pc.event, s.cfg);
    StatusShape(s, a, status);
    if a.fate.Failed? {
      MoveKeepsInv(s, s');
    } else {
      MemoryIsCurrent(s, s.pc.m);
      CommitStatusReplays(s, s.pc.m, s.pc.event);
      ApplyRecords(s.pc.m.status, s.pc.event, s.cfg);
      StatusCommitKeepsInv(s, status, s');
    }
  }

  /** The recorded Create: the new instance replaces one that is gone. */
  lemma RecordKeepsInv(s: State, status: MachineStatus, s': State)
    requires Inv(s) && s.pc.WritingCreated? && s.present && s.pc.m.version == s.machine.version
    requires status.provider.instanceId == Some(s.pc.inst.id)
    requires s' == Commit(s, s.pc.m.(status := status)).(pc := s'.pc, events := s'.events)
    requires s'.pc.Idle? || (s'.pc.WritingProviderId? && s'.pc.m == s'.machine)
    requires HistoryOk(s')
    ensures Inv(s')
  {
    MemoryIsCurrent(s, s.pc.m);
    assert forall v :: v in s'.versions ==> v == s'.machine.version || v in s.versions;
  }

  lemma RecordShape(s: State, a: Action, status: MachineStatus)
    requires s.pc.WritingCreated? && ControllerEnabled(s, a)
    requires status == Apply(s.pc.m.status, s.pc.event, s.cfg)
    ensures var s' := ControllerNext(s, a);
            && (s'.pc.Idle? || (a.fate.Applied? && s'.pc.WritingProviderId? && s'.pc.m == s'.machine))
            && (a.fate.Failed? ==> s' == s.(lost := s.lost + {s.pc.inst.id}, pc := s'.pc))
            && (!a.fate.Failed? ==>
                  && s' == CommitStatus(s, s.pc.m, s.pc.event).(pc := s'.pc)
                  && s' == Commit(s, s.pc.m.(status := status)).(pc := s'.pc, events := s.events + [s.pc.event]))
  {
  }

  lemma CreatedWriteKeepsInv(s: State, a: Action)
    requires Inv(s) && s.pc.WritingCreated? && ControllerEnabled(s, a)
    ensures Inv(ControllerNext(s, a))
  {
    var s' := ControllerNext(s, a);
    var status := Apply(s.pc.m.status, s.pc.event, s.cfg);
    RecordShape(s, a, status);
    if !a.fate.Failed? {
      MemoryIsCurrent(s, s.pc.m);
      CommitStatusReplays(s, s.pc.m, s.pc.event);
      RecordKeepsInv(s, status, s');
    }
  }

  /** A status write that takes effect, whichever it is. */
  lemma EffectiveWrite(s: State, a: Action)
    requires Inv(s) && ControllerEnabled(s, a) && a.WriteStatus? && !a.fate.Failed?
    ensures var s' := Next(s, a);
            && s.pc.m == s.machine
            && s'.events == s.events + [s.pc.event]
            && s'.machine.status == Apply(s.machine.status, s.pc.event, s.cfg)
  {
    MemoryIsCurrent(s, s.pc.m);
    var status := Apply(s.pc.m.status, s.pc.event, s.cfg);
    if s.pc.WritingCreated? {
      RecordShape(s, a, status);
    } else {
      StatusShape(s, a, status);
    }
  }

  lemma StripKeepsInv(s: State, a: Action)
    requires Inv(s) && s.pc.StrippingFinalizers? && ControllerEnabled(s, a)
    ensures Inv(ControllerNext(s, a))
  {
    if !a.fate.Failed? {
      MemoryIsCurrent(s, s.pc.m);
    }
  }

  /** Where a step of the controller that neither starts nor ends a reconcile
      leaves the object in memory: as it was beside an unchanged store, or equal
      to what it has stored. */
  ghost predicate KeepsPace(s: State, s': State)
    requires !s.pc.Idle?
  {
    s'.pc.Idle? || (s'.machine == s.machine && s'.pc.m == s.pc.m) || s'.pc.m == s'.machine
  }

  lemma CallShape(s: State, a: Action)
    requires ControllerEnabled(s, a)
    requires s.pc.CheckingExists? || s.pc.CallingCreate? || s.pc.ReadingHealth? || s.pc.CallingDelete?
    ensures KeepsPace(s, ControllerNext(s, a))
  {
  }

  lemma LastCallShape(s: State, a: Action)
    requires ControllerEnabled(s, a) && (s.pc.AddingFinalizer? || s.pc.DeployingDpu? || s.pc.StrippingFinalizers?)
    ensures ControllerNext(s, a).pc.Idle?
  {
  }

  lemma StepKeepsPace(s: State, a: Action)
    requires ControllerEnabled(s, a) && !s.pc.Idle?
    ensures KeepsPace(s, ControllerNext(s, a))
  {
    match s.pc {
      case Gating(_) => GateShape(s, a);
      case CallingGet(_) => CallGetShape(s, a);
      case WritingLabels(m, inst) =>
        LabelsShape(s, a, if m.spec.Some? then WithTopology(m.labels, inst, m.spec.value.instanceTypeId) else m.labels);
      case WritingBlock(_, _) => StatusShape(s, a, Apply(s.pc.m.status, s.pc.event, s.cfg));
      case WritingUpdate(_, _) => StatusShape(s, a, Apply(s.pc.m.status, s.pc.event, s.cfg));
      case WritingCreated(_, _, _) => RecordShape(s, a, Apply(s.pc.m.status, s.pc.event, s.cfg));
      case WritingProviderId(_, _) => ProviderIdShape(s, a);
      case AddingFinalizer(_) => LastCallShape(s, a);
      case DeployingDpu(_, _) => LastCallShape(s, a);
      case StrippingFinalizers(_) => LastCallShape(s, a);
      case _ => CallShape(s, a);
    }
  }

  lemma StepKeepsInv(s: State, a: Action)
    requires Inv(s) && Enabled(s, a)
    ensures Inv(Next(s, a))
  {
    if EnvironmentEnabled(s, a) {
      EnvironmentKeepsInv(s, a);
    } else {
      match s.pc {
        case Idle(_) => ReadKeepsInv(s, a);
        case AddingFinalizer(_) => AddFinalizerKeepsInv(s, a);
        case CheckingExists(_) => AskExistsKeepsInv(s, a);
        case Gating(_) => GateKeepsInv(s, a);
        case WritingBlock(_, _) => StatusWriteKeepsInv(s, a);
        case CallingCreate(_) => CreateKeepsInv(s, a);
        case WritingCreated(_, _, _) => CreatedWriteKeepsInv(s, a);
        case WritingProviderId(_, _) => ProviderIdKeepsInv(s, a);
        case DeployingDpu(_, _) => DeployKeepsInv(s, a);
        case CallingGet(_) => CallGetKeepsInv(s, a);
        case WritingLabels(_, _) => LabelsKeepInv(s, a);
        case ReadingHealth(_, _) => ReadHealthKeepsInv(s, a);
        case WritingUpdate(_, _) => StatusWriteKeepsInv(s, a);
        case CallingDelete(_) => DeleteKeepsInv(s, a);
        case StrippingFinalizers(_) => StripKeepsInv(s, a);
      }
    }
  }

  lemma {:induction false} ReachableInv(states: seq<State>, actions: seq<Action>, n: nat)
    requires Run(states, actions) && n < |states|
    ensures Inv(states[n])
  {
    if n == 0 {
      InitInv(states[0]);
    } else {
      ReachableInv(states, actions, n - 1);
      StepKeepsInv(states[n - 1], actions[n - 1]);
    }
  }
}
