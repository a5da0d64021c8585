/** The safety claims about every run of the reconcile protocol. */
module Theorems {
  import opened Options
  import opened Conditions
  import opened Health
  import opened Provider
  import opened History
  import opened ProviderSpec
  import opened Topology
  import opened PreFlight
  import opened Protocol
  import opened Safety

  // ---------- orphans ----------

  /** A run step at which an instance can come to exist without being recorded:
      the response of CreateInstance is an error or empty although it took
      effect, or the status write after it has no effect. */
  predicate LosesInstance(s: State, a: Action) {
    || (s.pc.CallingCreate? && a.CallCreate?
        && ((a.created.CreateFailed? && a.created.effect.Some?) || (a.created.CreateEmpty? && a.created.effect.Some?)))
    || (s.pc.WritingCreated? && (a.Crash? || (a.WriteStatus? && a.fate.Failed?)))
  }

  /** Every live instance created for the Machine is the recorded one, or has an
      acknowledged delete, or is about to be recorded, or was itself lost at a
      step named by LosesInstance. */
  lemma OrphanAccounting(states: seq<State>, actions: seq<Action>, n: nat, id: Id)
    requires Run(states, actions) && n < |states| && id in states[n].live
    ensures var s := states[n];
            || s.machine.Recorded() == Some(id) || id in s.acked || InFlight(s, id)
            || exists k :: 0 <= k < n && LostAt(states, actions, k, id)
  {
    ReachableInv(states, actions, n);
    if id in states[n].lost {
      LostAtSomeStep(states, actions, n, id);
    }
  }

  /** Step k is the one that loses this instance. */
  ghost predicate LostAt(states: seq<State>, actions: seq<Action>, k: nat, id: Id)
    requires |states| == |actions| + 1 && k < |actions|
  {
    LosesInstance(states[k], actions[k]) && id !in states[k].lost && id in states[k + 1].lost
  }

  lemma {:induction false} LostAtSomeStep(states: seq<State>, actions: seq<Action>, n: nat, id: Id)
    requires Run(states, actions) && n < |states| && id in states[n].lost
    ensures exists k :: 0 <= k < n && LostAt(states, actions, k, id)
  {
    if n > 0 {
      LostGrowth(states[n - 1], actions[n - 1]);
      if id in states[n - 1].lost {
        LostAtSomeStep(states, actions, n - 1, id);
      } else {
        assert LostAt(states, actions, n - 1, id);
      }
    }
  }

  lemma LostGrowth(s: State, a: Action)
    requires Enabled(s, a)
    ensures !LosesInstance(s, a) ==> Next(s, a).lost == s.lost
    ensures s.lost <= Next(s, a).lost
  {
    if !EnvironmentEnabled(s, a) && s.pc.Gating? {
      GateShape(s, a);
    } else if !EnvironmentEnabled(s, a) && s.pc.CallingGet? {
      CallGetShape(s, a);
    }
  }

  ghost predicate LossFree(states: seq<State>, actions: seq<Action>, n: nat)
    requires |states| == |actions| + 1 && n < |states|
  {
    forall k :: 0 <= k < n ==> !LosesInstance(states[k], actions[k])
  }

  predicate Undeleted(s: State, id: Id) {
    id in s.live && id !in s.acked
  }

  ghost predicate TwoInstances(s: State) {
    exists i, j :: i != j && Undeleted(s, i) && Undeleted(s, j)
  }

  /** The recorded instance is still there. */
  predicate RecordedLives(s: State) {
    s.machine.Recorded().Some? && Undeleted(s, s.machine.Recorded().value)
  }

  /** Without such a loss an undeleted instance is the recorded one, or the one
      whose status write is due. */
  lemma UndeletedIsKnown(states: seq<State>, actions: seq<Action>, n: nat, id: Id)
    requires Run(states, actions) && n < |states| && LossFree(states, actions, n)
    requires Undeleted(states[n], id)
    ensures states[n].machine.Recorded() == Some(id) || InFlight(states[n], id)
  {
    OrphanAccounting(states, actions, n, id);
  }

  /** So two undeleted instances coexist exactly while a second one waits to be
      recorded over a recorded one that is still there. */
  lemma TwoInstancesIff(states: seq<State>, actions: seq<Action>, n: nat)
    requires Run(states, actions) && n < |states| && LossFree(states, actions, n)
    ensures var s := states[n];
            TwoInstances(s) <==>
            && s.pc.WritingCreated? && Undeleted(s, s.pc.inst.id)
            && RecordedLives(s) && s.machine.Recorded().value != s.pc.inst.id
  {
    var s := states[n];
    if TwoInstances(s) {
      var i, j :| i != j && Undeleted(s, i) && Undeleted(s, j);
      UndeletedIsKnown(states, actions, n, i);
      UndeletedIsKnown(states, actions, n, j);
    }
  }

  // ---------- a reconcile and the read it starts from ----------

  /** Before the call of CreateInstance. */
  predicate PreCreate(pc: Pc) {
    pc.CheckingExists? || pc.Gating? || pc.CallingCreate?
  }

  /** Step r reads the object that the reconcile at state n works with. */
  ghost predicate ReadAt(states: seq<State>, actions: seq<Action>, r: nat, n: nat)
    requires |states| == |actions| + 1 && n < |states|
  {
    && r < n && states[r].pc.Idle? && actions[r].Read? && actions[r].version in states[r].versions
    && (forall k :: r < k <= n ==> PreCreate(states[k].pc))
    && states[n].pc.m == states[r].versions[actions[r].version]
  }

  /** One step towards CreateInstance: it goes on with the object, or reads it. */
  ghost predicate Approaches(s: State, a: Action, s': State)
    requires PreCreate(s'.pc)
  {
    && s'.strippedAt == s.strippedAt && s'.machine.Recorded() == s.machine.Recorded()
    && (|| (PreCreate(s.pc) && s'.pc.m == s.pc.m)
        || (s.pc.Idle? && a.Read? && a.version in s.versions && s'.pc.m == s.versions[a.version]))
  }

  lemma PreCreateStep(s: State, a: Action)
    requires Inv(s) && Enabled(s, a) && PreCreate(Next(s, a).pc)
    ensures Approaches(s, a, Next(s, a))
  {
    if !EnvironmentEnabled(s, a) {
      PreCreateControllerStep(s, a);
    }
  }

  lemma PreCreateOrigin(s: State, a: Action)
    requires ControllerEnabled(s, a) && PreCreate(ControllerNext(s, a).pc)
    ensures s.pc.Idle? || s.pc.CheckingExists? || s.pc.Gating?
  {
  }

  lemma PreCreateControllerStep(s: State, a: Action)
    requires ControllerEnabled(s, a) && PreCreate(ControllerNext(s, a).pc)
    ensures Approaches(s, a, ControllerNext(s, a))
  {
    PreCreateOrigin(s, a);
    if s.pc.Gating? {
      GateShape(s, a);
    }
  }

  /** Every reconcile on its way to CreateInstance has read its object; since
      that read no finalizer went and the recorded instance stayed the same. */
  lemma FindRead(states: seq<State>, actions: seq<Action>, n: nat) returns (r: nat)
    requires Run(states, actions) && n < |states| && PreCreate(states[n].pc)
    ensures ReadAt(states, actions, r, n)
    ensures states[n].strippedAt == states[r].strippedAt
    ensures states[n].machine.Recorded() == states[r].machine.Recorded()
  {
    forall k | 0 <= k <= n && PreCreate(states[k].pc)
      ensures k > 0 && Approaches(states[k - 1], actions[k - 1], states[k]) {
      LastApproach(states, actions, k);
    }
    r := TraceBack(states, actions, n);
  }

  lemma {:induction false} TraceBack(states: seq<State>, actions: seq<Action>, n: nat) returns (r: nat)
    requires |states| == |actions| + 1 && n < |states| && PreCreate(states[n].pc)
    requires forall k :: 0 <= k <= n && PreCreate(states[k].pc) ==>
               k > 0 && Approaches(states[k - 1], actions[k - 1], states[k])
    ensures ReadAt(states, actions, r, n)
    ensures states[n].strippedAt == states[r].strippedAt
    ensures states[n].machine.Recorded() == states[r].machine.Recorded()
  {
    assert n > 0 && Approaches(states[n - 1], actions[n - 1], states[n]);
    if PreCreate(states[n - 1].pc) {
      r := TraceBack(states, actions, n - 1);
    } else {
      r := n - 1;
    }
  }

  lemma LastApproach(states: seq<State>, actions: seq<Action>, n: nat)
    requires Run(states, actions) && n < |states| && PreCreate(states[n].pc)
    ensures n > 0 && Approaches(states[n - 1], actions[n - 1], states[n])
  {
    ReachableInv(states, actions, n - 1);
    PreCreateStep(states[n - 1], actions[n - 1]);
  }

  /** The read returned the object as it was stored at that moment. */
  predicate Fresh(s: State, a: Action) {
    a.Read? ==> a.version == s.machine.version
  }

  /** When CreateInstance is called without an earlier loss, an undeleted
      instance exists exactly if the stored Machine records one; the read that
      the reconcile started from then was older than that record when it was made. */
  lemma SecondCreate(states: seq<State>, actions: seq<Action>, n: nat) returns (r: nat)
    requires Run(states, actions) && n < |states| && LossFree(states, actions, n) && states[n].pc.CallingCreate?
    ensures ReadAt(states, actions, r, n)
    ensures (exists id :: Undeleted(states[n], id)) <==> RecordedLives(states[n])
    ensures RecordedLives(states[n]) ==>
              && states[n].pc.m.version < states[n].machine.version
              && states[r].versions[actions[r].version].Recorded() != states[r].machine.Recorded()
              && !Fresh(states[r], actions[r])
  {
    var s := states[n];
    r := FindRead(states, actions, n);
    ReachableInv(states, actions, n);
    ReachableInv(states, actions, r);
    if id :| Undeleted(s, id) {
      UndeletedIsKnown(states, actions, n, id);
    }
  }

  /** The read shows the recorded instance as it is stored at that moment, as
      every fresh read does. */
  predicate ShowsRecord(s: State, a: Action) {
    a.Read? && a.version in s.versions ==> s.versions[a.version].Recorded() == s.machine.Recorded()
  }

  /** Where every read does, the object in memory records what the stored one does. */
  lemma {:induction false} MemoryShowsRecord(states: seq<State>, actions: seq<Action>, n: nat)
    requires Run(states, actions) && n < |states|
    requires forall k :: 0 <= k < n ==> ShowsRecord(states[k], actions[k])
    ensures InStep(states[n])
  {
    if n > 0 {
      MemoryShowsRecord(states, actions, n - 1);
      ShownStep(states[n - 1], actions[n - 1]);
    }
  }

  predicate InStep(s: State) {
    s.pc.Idle? || s.pc.m.Recorded() == s.machine.Recorded()
  }

  lemma ShownStep(s: State, a: Action)
    requires Enabled(s, a) && ShowsRecord(s, a) && InStep(s)
    ensures InStep(Next(s, a))
  {
    if EnvironmentEnabled(s, a) {
      UndisturbedRecord(s, a);
    } else if s.pc.Idle? {
      ReadShape(s, a);
    } else {
      StepKeepsPace(s, a);
    }
  }

  lemma UndisturbedRecord(s: State, a: Action)
    requires EnvironmentEnabled(s, a)
    ensures var s' := Next(s, a); s'.machine.Recorded() == s.machine.Recorded() && (s'.pc == s.pc || s'.pc.Idle?)
  {
  }

  lemma ReadShape(s: State, a: Action)
    requires ControllerEnabled(s, a) && s.pc.Idle?
    ensures var s' := ControllerNext(s, a);
            && s'.machine == s.machine
            && (s'.pc.Idle? || (a.Read? && a.version in s.versions && s'.pc.m == s.versions[a.version]))
  {
  }

  /** Where every read shows the stored record and nothing is lost, there is at
      most one undeleted instance, however user, cloud, other controllers,
      crashes and failures of later steps interleave. */
  lemma AtMostOneInstance(states: seq<State>, actions: seq<Action>, n: nat)
    requires Run(states, actions) && n < |states| && LossFree(states, actions, n)
    requires forall k :: 0 <= k < n ==> ShowsRecord(states[k], actions[k])
    ensures !TwoInstances(states[n])
  {
    TwoInstancesIff(states, actions, n);
    MemoryShowsRecord(states, actions, n);
    ReachableInv(states, actions, n);
  }

  // ---------- the calls that make a second instance ----------

  /** CreateInstance succeeds although the recorded instance is still there. */
  predicate CreatesSecond(s: State, a: Action) {
    s.pc.CallingCreate? && a.CallCreate? && a.created.CreatedInstance? && RecordedLives(s)
  }

  /** A second instance waits to be recorded. */
  predicate SecondPending(s: State) {
    s.pc.WritingCreated? && RecordedLives(s) && s.machine.Recorded().value != s.pc.inst.id
  }

  lemma PendingOrigin(s: State, a: Action)
    requires ControllerEnabled(s, a) && ControllerNext(s, a).pc.WritingCreated?
    ensures s.pc.CallingCreate? && a.created.CreatedInstance?
  {
    if s.pc.Gating? {
      GateShape(s, a);
    } else if s.pc.CallingGet? {
      CallGetShape(s, a);
    }
  }

  lemma PendingStep(s: State, a: Action)
    requires Enabled(s, a) && SecondPending(Next(s, a))
    ensures SecondPending(s) || CreatesSecond(s, a)
  {
    if EnvironmentEnabled(s, a) {
      UndisturbedRecord(s, a);
    } else {
      PendingOrigin(s, a);
    }
  }

  lemma {:induction false} PendingWasCreated(states: seq<State>, actions: seq<Action>, n: nat) returns (k: nat)
    requires Run(states, actions) && n < |states| && SecondPending(states[n])
    ensures k < n && CreatesSecond(states[k], actions[k])
  {
    PendingStep(states[n - 1], actions[n - 1]);
    if SecondPending(states[n - 1]) {
      k := PendingWasCreated(states, actions, n - 1);
    } else {
      k := n - 1;
    }
  }

  /** Only instances that exist are acknowledged. */
  lemma {:induction false} AckedWasBorn(states: seq<State>, actions: seq<Action>, n: nat)
    requires Run(states, actions) && n < |states|
    ensures states[n].acked <= states[n].born
  {
    if n > 0 {
      AckedWasBorn(states, actions, n - 1);
      ReachableInv(states, actions, n - 1);
      AckStep(states[n - 1], actions[n - 1]);
    }
  }

  lemma AckStep(s: State, a: Action)
    requires Inv(s) && Enabled(s, a) && s.acked <= s.born
    ensures Next(s, a).acked <= Next(s, a).born
  {
    if !EnvironmentEnabled(s, a) {
      AckShape(s, a);
    }
  }

  lemma AckShape(s: State, a: Action)
    requires ControllerEnabled(s, a)
    ensures var s' := ControllerNext(s, a);
            && s.born <= s'.born
            && (|| s'.acked == s.acked
                || (s.pc.CallingDelete? && s.pc.m.Recorded().Some? && s'.acked == s.acked + {s.pc.m.Recorded().value}
                    && a.CallDelete? && Acknowledges(a.deleted)))
  {
    match s.pc {
      case Gating(_) => GateShape(s, a);
      case CallingGet(_) => CallGetShape(s, a);
      case WritingLabels(m, inst) =>
        LabelsShape(s, a, if m.spec.Some? then WithTopology(m.labels, inst, m.spec.value.instanceTypeId) else m.labels);
      case WritingBlock(_, _) => StatusShape(s, a, Apply(s.pc.m.status, s.pc.event, s.cfg));
      case WritingUpdate(_, _) => StatusShape(s, a, Apply(s.pc.m.status, s.pc.event, s.cfg));
      case WritingCreated(_, _, _) => RecordShape(s, a, Apply(s.pc.m.status, s.pc.event, s.cfg));
      case WritingProviderId(_, _) => ProviderIdShape(s, a);
      case _ =>
    }
  }

  lemma SecondIsTwo(s: State, a: Action)
    requires Inv(s) && Enabled(s, a) && CreatesSecond(s, a) && s.acked <= s.born
    ensures TwoInstances(Next(s, a))
  {
    var s' := Next(s, a);
    assert Undeleted(s', s.machine.Recorded().value) && Undeleted(s', a.created.inst.id);
  }

  /** A loss-free run never has two undeleted instances if and only if no
      successful CreateInstance of it meets a recorded instance that is still there. */
  lemma NeverTwoIff(states: seq<State>, actions: seq<Action>, n: nat)
    requires Run(states, actions) && n < |states| && LossFree(states, actions, n)
    ensures (forall m :: 0 <= m <= n ==> !TwoInstances(states[m]))
            <==> (forall k :: 0 <= k < n ==> !CreatesSecond(states[k], actions[k]))
  {
    if m :| 0 <= m <= n && TwoInstances(states[m]) {
      TwoInstancesIff(states, actions, m);
      var k := PendingWasCreated(states, actions, m);
      assert CreatesSecond(states[k], actions[k]);
    }
    if k :| 0 <= k < n && CreatesSecond(states[k], actions[k]) {
      ReachableInv(states, actions, k);
      AckedWasBorn(states, actions, k);
      SecondIsTwo(states[k], actions[k]);
      assert TwoInstances(states[k + 1]);
    }
  }

  // ---------- finalizers ----------

  /** CreateInstance is called while the persisted Machine carries the
      controller's finalizer, exactly if it still did when the reconcile read
      its object; a fresh read is enough. */
  lemma CreateUnderFinalizer(states: seq<State>, actions: seq<Action>, n: nat) returns (r: nat)
    requires Run(states, actions) && n < |states| && states[n].pc.CallingCreate?
    ensures ReadAt(states, actions, r, n)
    ensures states[n].present && states[n].machine.current <==> states[r].present && states[r].machine.current
    ensures states[n].present && states[n].machine.current <==> states[r].strippedAt == None
    ensures Fresh(states[r], actions[r]) ==> states[n].present && states[n].machine.current
  {
    r := FindRead(states, actions, n);
    ReachableInv(states, actions, n);
    ReachableInv(states, actions, r);
  }

  /** A Machine that records an instance carries the current or the legacy
      finalizer, or the delete of that instance was acknowledged. In
      particular no finalizer goes, and no object disappears, before the
      acknowledgement, however often the removal has to be retried. */
  lemma RecordedInstanceIsGuarded(states: seq<State>, actions: seq<Action>, n: nat)
    requires Run(states, actions) && n < |states| && states[n].machine.Recorded().Some?
    ensures var s := states[n];
            && (s.machine.current || s.machine.legacy || s.machine.Recorded().value in s.acked)
            && (s.strippedAt.Some? || !s.present ==> s.machine.Recorded().value in s.acked)
  {
    ReachableInv(states, actions, n);
  }

  /** Delete of this instance was answered at step j with an error of status 404,
      or without error and with status 200, 202, 204 or 404. */
  lemma {:induction false} AcknowledgedByCode(states: seq<State>, actions: seq<Action>, n: nat, id: Id) returns (j: nat)
    requires Run(states, actions) && n < |states| && id in states[n].acked
    ensures j < n && states[j].pc.CallingDelete? && states[j].pc.m.Recorded() == Some(id) && actions[j].CallDelete?
    ensures var reply := actions[j].deleted;
            if reply.error then reply.code == Some(404)
            else reply.code == Some(200) || reply.code == Some(202)
                 || reply.code == Some(204) || reply.code == Some(404)
  {
    if id in states[n - 1].acked {
      j := AcknowledgedByCode(states, actions, n - 1, id);
    } else {
      j := n - 1;
      AckStepOf(states[j], actions[j], id);
    }
  }

  lemma AckStepOf(s: State, a: Action, id: Id)
    requires Enabled(s, a) && id in Next(s, a).acked && id !in s.acked
    ensures s.pc.CallingDelete? && s.pc.m.Recorded() == Some(id) && a.CallDelete?
    ensures if a.deleted.error then a.deleted.code == Some(404)
            else a.deleted.code == Some(200) || a.deleted.code == Some(202)
                 || a.deleted.code == Some(204) || a.deleted.code == Some(404)
  {
    if !EnvironmentEnabled(s, a) {
      AckShape(s, a);
    }
  }

  /** A Machine that records an instance has lost its finalizers, or is gone,
      only after such an answer about this instance in the run. */
  lemma FinalizersGoAfterDelete(states: seq<State>, actions: seq<Action>, n: nat, id: Id) returns (j: nat)
    requires Run(states, actions) && n < |states| && states[n].machine.Recorded() == Some(id)
    requires (!states[n].machine.current && !states[n].machine.legacy) || !states[n].present
    ensures j < n && states[j].pc.CallingDelete? && states[j].pc.m.Recorded() == Some(id) && actions[j].CallDelete?
    ensures var reply := actions[j].deleted;
            if reply.error then reply.code == Some(404)
            else reply.code == Some(200) || reply.code == Some(202)
                 || reply.code == Some(204) || reply.code == Some(404)
  {
    RecordedInstanceIsGuarded(states, actions, n);
    j := AcknowledgedByCode(states, actions, n, id);
  }

  /** Of all versions the store has held: while no strip has taken effect, a
      finalizer once present is still there; from the strip on there is none. */
  lemma FinalizersOnlyStripped(states: seq<State>, actions: seq<Action>, n: nat, v: nat)
    requires Run(states, actions) && n < |states| && v in states[n].versions
    ensures var s := states[n];
            match s.strippedAt
            case None => (s.versions[v].current ==> s.machine.current) && (s.versions[v].legacy ==> s.machine.legacy)
            case Some(at) => s.machine.deleting && (v >= at ==> !s.versions[v].current && !s.versions[v].legacy)
  {
    ReachableInv(states, actions, n);
  }

  // ---------- the persisted status is a replay ----------

  /** No update is lost or duplicated: in every reachable state the persisted
      status is the replay, in order, of the writes that took effect. */
  lemma StatusIsReplay(states: seq<State>, actions: seq<Action>, n: nat)
    requires Run(states, actions) && n < |states|
    ensures var s := states[n]; s.machine.status == Replay(s.origin, s.events, s.cfg)
  {
    ReachableInv(states, actions, n);
  }

  /** So in every reachable state the conditions match the observations made
      since the recorded Create, whatever failures and retries came between. */
  lemma ConditionsInEveryRun(states: seq<State>, actions: seq<Action>, n: nat, k: nat)
    requires Run(states, actions) && n < |states| && LastCreate(states[n].events, k)
    ensures MatchesHistory(states[n].machine.status.provider.conditions, Observed(states[n].events[k + 1..]))
  {
    StatusIsReplay(states, actions, n);
    ConditionsMatchHistory(states[n].origin, states[n].events, k, states[n].cfg);
  }

  /** And the fault-block counter is the number of recorded blocks. */
  lemma FaultCounterInEveryRun(states: seq<State>, actions: seq<Action>, n: nat)
    requires Run(states, actions) && n < |states|
    requires Find(states[n].origin.provider.conditions, FaultBlockedCreation) == None
    ensures Counts(states[n].machine.status.provider.conditions, BlocksSinceCreate(states[n].events))
  {
    StatusIsReplay(states, actions, n);
    FaultCounterIsExact(states[n].origin, states[n].events, states[n].cfg);
  }

  /** Whenever the status write of an Update takes effect, it declares the
      provisioning timeout exactly when the instance it saw is Pending,
      Provisioning or Configuring and more than the timeout has passed since the recorded Create. */
  lemma TimeoutInEveryRun(states: seq<State>, actions: seq<Action>, n: nat, k: nat)
    requires Run(states, actions) && n < |actions| && LastCreate(states[n].events, k)
    requires states[n].pc.WritingUpdate? && actions[n].WriteStatus? && !actions[n].fate.Failed?
    ensures var s, e := states[n], states[n].pc.event;
            && e.Updated?
            && var after := states[n + 1].machine.status.failure;
               if (e.inst.status == Some(Pending) || e.inst.status == Some(Provisioning)
                   || e.inst.status == Some(Configuring))
                  && s.events[k].at != 0 && e.at - s.events[k].at > s.cfg.timeout
               then
                 && after == Some(TimeoutFailure(e.inst.status.value, s.cfg.timeout))
                 && after.value.reason == "ProvisioningTimeout"
               else after == s.machine.status.failure
  {
    var s := states[n];
    ReachableInv(states, actions, n);
    StatusShape(s, actions[n], Apply(s.pc.m.status, s.pc.event, s.cfg));
    MemoryIsCurrent(s, s.pc.m);
    var e := s.pc.event;
    TimeoutIsSound(s.origin, s.events, k, s.cfg, e.inst, e.replies, e.at);
    ReplayOne(s.origin, s.events, e, s.cfg);
  }

  /** A status write that takes effect was computed from the status it replaces. */
  lemma EffectiveWriteIsCurrent(states: seq<State>, actions: seq<Action>, n: nat)
    requires Run(states, actions) && n < |actions| && actions[n].WriteStatus? && !actions[n].fate.Failed?
    ensures var s, s' := states[n], states[n + 1];
            && s.pc.m.status == s.machine.status
            && s'.events == s.events + [s.pc.event]
            && s'.machine.status == Apply(s.machine.status, s.pc.event, s.cfg)
  {
    ReachableInv(states, actions, n);
    EffectiveWrite(states[n], actions[n]);
  }

  // ---------- the stale read ----------

  /** What the exception of CreateUnderFinalizer looks like: the Machine is
      deleted without ever having had an instance, its finalizer goes, and a
      reconcile that still reads the old version creates an instance for it. No
      write can record it: it stays live and lost, and the object is gone. */
  lemma StaleReadLeavesOrphan(s: State, inst: Instance, replies: Replies, at: int)
    requires Init(s) && Creatable(s.machine) && !s.machine.legacy && s.machine.foreign == {}
    requires inst.id !in s.born
    ensures exists states: seq<State>, actions: seq<Action> ::
              && Run(states, actions) && states[0] == s
              && var last := states[|states| - 1];
                 !last.present && last.live == {inst.id} && inst.id in last.lost && last.acked == {}
  {
    var states, actions := DeletedBeforeCreate(s);
    states, actions := ReadToCreate(states, actions, s.machine, replies, at);
    states, actions := Extend(states, actions, CallCreate(CreatedInstance(inst), at));
    states, actions := Extend(states, actions, WriteStatus(Failed));
  }

  /** The user deletes the Machine and the controller reads it. */
  lemma DeletedAndRead(s: State) returns (states: seq<State>, actions: seq<Action>)
    requires Init(s) && !s.machine.deleting && s.machine.current
    ensures Run(states, actions) && states[0] == s
    ensures var s' := Commit(s, s.machine.(deleting := true));
            states[|states| - 1] == s'.(pc := CallingDelete(s'.machine))
  {
    states, actions := [s], [];
    states, actions := Extend(states, actions, UserDelete);
    states, actions := Extend(states, actions, Read(s.machine.version + 1));
  }

  /** The Machine is deleted and stripped before any instance existed. */
  lemma DeletedBeforeCreate(s: State) returns (states: seq<State>, actions: seq<Action>)
    requires Init(s) && !s.machine.deleting && s.machine.current && !s.machine.legacy && s.machine.foreign == {}
    requires s.machine.Recorded() == None && s.machine.spec.Some?
    ensures Run(states, actions) && states[0] == s
    ensures var last := states[|states| - 1];
            && !last.present && last.pc.Idle? && last.live == {} && last.born == s.born && last.acked == {}
            && s.machine.version in last.versions && last.versions[s.machine.version] == s.machine
  {
    states, actions := DeletedAndRead(s);
    states, actions := Extend(states, actions, SkipDelete);
    states, actions := Extend(states, actions, StripFinalizers(Applied));
  }

  lemma Extend(states: seq<State>, actions: seq<Action>, a: Action) returns (states': seq<State>, actions': seq<Action>)
    requires Run(states, actions) && Enabled(states[|states| - 1], a)
    ensures states' == states + [Next(states[|states| - 1], a)] && actions' == actions + [a]
    ensures Run(states', actions')
  {
    states', actions' := states + [Next(states[|states| - 1], a)], actions + [a];
  }

  // ---------- the lost answer to a write ----------

  /** Why a loss-free run needs fresh reads: the status write of instance a takes
      effect but reports a failure, the retry reads the version before it, finds
      no instance and creates b. Both live, nothing was deleted or lost. */
  lemma StaleReadMakesTwo(s: State, a: Instance, b: Instance, replies: Replies, at: int)
    requires Init(s) && Creatable(s.machine)
    requires a.id !in s.born && b.id !in s.born && a.id != b.id
    ensures exists states: seq<State>, actions: seq<Action> ::
              && Run(states, actions) && states[0] == s && LossFree(states, actions, |actions|)
              && var last := states[|actions|];
                 last.present && last.machine.Recorded() == Some(a.id) && Undeleted(last, a.id) && Undeleted(last, b.id)
  {
    var states, actions := UnreportedCreate(s, a, replies, at);
    states, actions := ReadToCreate(states, actions, s.machine, replies, at);
    states, actions := Extend(states, actions, CallCreate(CreatedInstance(b), at));
  }

  /** The Machine is as a reconcile wants it that goes on to CreateInstance. */
  predicate Creatable(m: Machine) {
    && !m.deleting && m.current && m.Recorded() == None
    && m.spec.Some? && Validate(m.spec.value) == None && !Targeted(m.spec.value)
  }

  /** A reconcile that reads version m gets as far as CreateInstance. */
  lemma ReadToCreate(states: seq<State>, actions: seq<Action>, m: Machine, replies: Replies, at: int)
    returns (states': seq<State>, actions': seq<Action>)
    requires Run(states, actions) && states[|actions|].pc.Idle? && Creatable(m)
    requires m.version in states[|actions|].versions && states[|actions|].versions[m.version] == m
    ensures Run(states', actions') && states'[0] == states[0]
    ensures states'[|actions'|] == states[|actions|].(pc := CallingCreate(m))
    ensures LossFree(states, actions, |actions|) ==> LossFree(states', actions', |actions'|)
  {
    states', actions' := Extend(states, actions, Read(m.version));
    assert states'[|actions'|].pc == Gating(m);
    states', actions' := Extend(states', actions', Gate(true, replies, None, at));
  }

  lemma UnreportedCreate(s: State, a: Instance, replies: Replies, at: int)
    returns (states: seq<State>, actions: seq<Action>)
    requires Init(s) && Creatable(s.machine) && a.id !in s.born
    ensures Run(states, actions) && states[0] == s && LossFree(states, actions, |actions|)
    ensures var last := states[|actions|];
            && last.present && last.pc.Idle? && last.machine.Recorded() == Some(a.id)
            && last.live == {a.id} && last.born == s.born + {a.id} && last.acked == {}
            && s.machine.version in last.versions && last.versions[s.machine.version] == s.machine
  {
    states, actions := AnsweredCreate(s, a, replies, at);
    UnreportedWrite(states[|actions|], a, at);
    states, actions := Extend(states, actions, WriteStatus(AppliedButFailed));
  }

  lemma AnsweredCreate(s: State, a: Instance, replies: Replies, at: int)
    returns (states: seq<State>, actions: seq<Action>)
    requires Init(s) && Creatable(s.machine) && a.id !in s.born
    ensures Run(states, actions) && states[0] == s && LossFree(states, actions, |actions|)
    ensures states[|actions|]
            == s.(live := {a.id}, born := s.born + {a.id}, pc := WritingCreated(s.machine, a, Created(a, at)))
  {
    states, actions := ReadToCreate([s], [], s.machine, replies, at);
    states, actions := Extend(states, actions, CallCreate(CreatedInstance(a), at));
  }

  /** The status write of a new instance takes effect but reports a failure. */
  lemma UnreportedWrite(s: State, inst: Instance, at: int)
    requires s.pc == WritingCreated(s.machine, inst, Created(inst, at)) && s.present && !s.machine.deleting
    ensures ControllerEnabled(s, WriteStatus(AppliedButFailed))
    ensures var s' := ControllerNext(s, WriteStatus(AppliedButFailed));
            && s'.present && s'.pc.Idle? && s'.machine.Recorded() == Some(inst.id)
            && s'.live == s.live && s'.born == s.born && s'.acked == s.acked
            && s'.versions == s.versions[s'.machine.version := s'.machine]
            && s'.machine.version == s.machine.version + 1
  {
    RecordShape(s, WriteStatus(AppliedButFailed), Apply(s.machine.status, Created(inst, at), s.cfg));
    ApplyRecords(s.machine.status, Created(inst, at), s.cfg);
  }

  // ---------- what CreateInstance waits for ----------

  /** The gate admits a Create to CreateInstance exactly if the spec targets no
      machine, or allows an unhealthy one, or nothing speaks against the machine:
      no alert of the source in use is marked critical or not marked as a warning,
      and the latest validation run is completed with all tests passed. */
  lemma GateDecides(s: State, a: Action, k: nat)
    requires s.pc.Gating? && ControllerEnabled(s, a) && a.admitted
    requires a.runs.Some? && a.runs.value != [] ==> IsLatest(a.runs.value, k)
    ensures ControllerNext(s, a).pc.CallingCreate? || ControllerNext(s, a).pc.WritingBlock?
    ensures ControllerNext(s, a).pc.CallingCreate? <==>
            || s.pc.m.spec.value.machineId == ""
            || s.pc.m.spec.value.allowUnhealthyMachine
            || (&& !(a.replies.reports.Some?
                     && exists i, x :: 0 <= i < |a.replies.reports.value| && x in a.replies.reports.value[i]
                                       && ("critical" in x.classifications || "warning" !in x.classifications))
                && !(a.replies.reports.None? && a.replies.jsonb.Some? && a.replies.jsonb.value.Some?
                     && exists x :: x in a.replies.jsonb.value.value
                                    && ("critical" in x.classifications || "warning" !in x.classifications))
                && !(a.runs.Some? && a.runs.value != []
                     && (a.runs.value[k].state != "completed" || a.runs.value[k].completed < a.runs.value[k].total)))
  {
    GateBlocks(s.pc.m.spec.value.machineId, a.replies, a.runs, k);
  }

  /** In every run, a call of CreateInstance comes from such a gate. */
  lemma {:induction false} CreateIsGated(states: seq<State>, actions: seq<Action>, n: nat) returns (j: nat)
    requires Run(states, actions) && n < |states| && states[n].pc.CallingCreate?
    ensures j < n && states[j].pc.Gating? && actions[j].Gate? && actions[j].admitted
    ensures states[j].pc.m == states[n].pc.m && states[n].pc.m.spec.Some?
    ensures ControllerEnabled(states[j], actions[j]) && ControllerNext(states[j], actions[j]).pc.CallingCreate?
    ensures forall k :: j < k <= n ==> states[k].pc == states[n].pc
  {
    CallingCreateOrigin(states[n - 1], actions[n - 1]);
    if states[n - 1].pc == states[n].pc {
      j := CreateIsGated(states, actions, n - 1);
    } else {
      j := n - 1;
    }
  }

  lemma CallingCreateOrigin(s: State, a: Action)
    requires Enabled(s, a) && Next(s, a).pc.CallingCreate?
    ensures s.pc == Next(s, a).pc
            || (s.pc.Gating? && a.Gate? && a.admitted && ControllerEnabled(s, a) && Next(s, a) == ControllerNext(s, a)
                && s.pc.m == Next(s, a).pc.m && s.pc.m.spec.Some?)
  {
    if !EnvironmentEnabled(s, a) {
      PreCreateControllerStep(s, a);
      PreCreateOrigin(s, a);
    }
  }

  /** So for a spec that targets a machine and does not allow an unhealthy one,
      CreateInstance is called only if the answers of its gate show no critical
      alert and a completed and passed latest validation run. */
  lemma TargetedCreateIsHealthy(states: seq<State>, actions: seq<Action>, n: nat, k: nat) returns (j: nat)
    requires Run(states, actions) && n < |states| && states[n].pc.CallingCreate?
    ensures states[n].pc.m.spec.Some? && j < n && states[j].pc.Gating? && actions[j].Gate?
    ensures states[j].pc.m == states[n].pc.m
    ensures var spec, replies, runs := states[n].pc.m.spec.value, actions[j].replies, actions[j].runs;
            spec.machineId != "" && !spec.allowUnhealthyMachine ==>
              && (replies.reports.Some? ==>
                    forall i, x :: 0 <= i < |replies.reports.value| && x in replies.reports.value[i] ==>
                      "warning" in x.classifications && "critical" !in x.classifications)
              && (replies.reports.None? && replies.jsonb.Some? && replies.jsonb.value.Some? ==>
                    forall x :: x in replies.jsonb.value.value ==>
                      "warning" in x.classifications && "critical" !in x.classifications)
              && (runs.Some? && runs.value != [] && IsLatest(runs.value, k) ==>
                    runs.value[k].state == "completed" && runs.value[k].completed >= runs.value[k].total)
  {
    j := CreateIsGated(states, actions, n);
    var runs := actions[j].runs;
    var latest := 0;
    if runs.Some? && runs.value != [] {
      latest := Latest(runs.value);
      LatestIsLatest(runs.value);
      if IsLatest(runs.value, k) {
        LatestIsUnique(runs.value, k, latest);
      }
    }
    GateDecides(states[j], actions[j], latest);
  }

  /** A Machine that records an instance gets to CreateInstance only after the
      same reconcile was told that this instance is missing: no data, or an error
      with status 404. */
  lemma {:induction false} RecreateAfterMissing(states: seq<State>, actions: seq<Action>, n: nat) returns (j: nat)
    requires Run(states, actions) && n < |states| && (states[n].pc.Gating? || states[n].pc.CallingCreate?)
    requires states[n].pc.m.Recorded().Some?
    ensures j < n && states[j].pc.CheckingExists? && states[j].pc.m == states[n].pc.m
    ensures actions[j].AskExists? && (actions[j].reply.NoData? || actions[j].reply == GetFailed(Some(404)))
    ensures forall k :: j < k <= n ==> PreCreate(states[k].pc)
  {
    MissingOrigin(states[n - 1], actions[n - 1]);
    if states[n - 1].pc.CheckingExists? {
      j := n - 1;
    } else {
      j := RecreateAfterMissing(states, actions, n - 1);
    }
  }

  lemma MissingOrigin(s: State, a: Action)
    requires Enabled(s, a) && (Next(s, a).pc.Gating? || Next(s, a).pc.CallingCreate?)
    requires Next(s, a).pc.m.Recorded().Some?
    ensures !s.pc.Idle? && s.pc.m == Next(s, a).pc.m
    ensures s.pc.Gating? || s.pc.CallingCreate?
            || (s.pc.CheckingExists? && a.AskExists? && (a.reply.NoData? || a.reply == GetFailed(Some(404))))
  {
    if !EnvironmentEnabled(s, a) {
      PreCreateControllerStep(s, a);
      PreCreateOrigin(s, a);
    }
  }
}
