/** What the persisted status of a Machine says about the writes that made it:
    theorems over every sequence of recorded Creates, Updates and blocked Creates. */
module History {
  import opened Options
  import opened Conditions
  import opened Health
  import opened Provider
  import Decimal

  datatype Event =
    | Created(inst: Instance, at: int)
    | Updated(inst: Instance, replies: Replies, at: int)
    | Blocked(target: string, alert: string, at: int)

  /** A status write: the status it was computed from, the event it stands for,
      and whether the store accepted it. */
  datatype Work = Work(from: MachineStatus, event: Event, accepted: bool)

  /** ProvisioningTimeout and MaxFaultBlockedAttempts. */
  datatype Config = Config(timeout: int, maxBlocks: int)

  function Apply(s: MachineStatus, e: Event, cfg: Config): MachineStatus {
    match e
    case Created(inst, at) => s.(provider := AfterCreate(inst, at))
    case Updated(inst, replies, at) => AfterUpdate(s, inst, replies, at, cfg.timeout)
    case Blocked(target, alert, at) => AfterBlock(s, target, alert, cfg.maxBlocks, at)
  }

  function Replay(s: MachineStatus, es: seq<Event>, cfg: Config): MachineStatus {
    if es == [] then s else Apply(Replay(s, es[..|es| - 1], cfg), es[|es| - 1], cfg)
  }

  lemma {:induction false} ReplayAppend(s: MachineStatus, a: seq<Event>, b: seq<Event>, cfg: Config)
    ensures Replay(s, a + b, cfg) == Replay(Replay(s, a, cfg), b, cfg)
  {
    if b == [] {
      assert a + b == a;
    } else {
      assert (a + b)[..|a + b| - 1] == a + b[..|b| - 1];
      ReplayAppend(s, a, b[..|b| - 1], cfg);
    }
  }

  lemma ReplaySplit(s: MachineStatus, es: seq<Event>, k: nat, cfg: Config)
    requires k <= |es|
    ensures Replay(s, es, cfg) == Replay(Replay(s, es[..k], cfg), es[k..], cfg)
  {
    ReplayAppend(s, es[..k], es[k..], cfg);
    assert es[..k] + es[k..] == es;
  }

  lemma ReplayOne(s: MachineStatus, es: seq<Event>, e: Event, cfg: Config)
    ensures Replay(s, es + [e], cfg) == Apply(Replay(s, es, cfg), e, cfg)
  {
    assert (es + [e])[..|es|] == es;
  }

  /** Event k is the Create that recorded the current instance. */
  ghost predicate LastCreate(es: seq<Event>, k: nat) {
    k < |es| && es[k].Created? && forall j :: k < j < |es| ==> !es[j].Created?
  }

  // ---------- conditions and observed statuses ----------

  /** The non-nil statuses seen by the Updates, in order. */
  function Observed(es: seq<Event>): seq<InstanceStatus> {
    if es == [] then []
    else
      var rest, last := Observed(es[..|es| - 1]), es[|es| - 1];
      if last.Updated? && last.inst.status.Some? then rest + [last.inst.status.value] else rest
  }

  /** The latest observation that is one of two statuses. */
  function LatestOf(obs: seq<InstanceStatus>, a: InstanceStatus, b: InstanceStatus): Option<InstanceStatus> {
    if obs == [] then None
    else if obs[|obs| - 1] == a || obs[|obs| - 1] == b then Some(obs[|obs| - 1])
    else LatestOf(obs[..|obs| - 1], a, b)
  }

  /** Whether an instance condition should be True after these observations. */
  predicate Shown(obs: seq<InstanceStatus>, kind: Kind) {
    match kind
    case InstanceReady => obs != [] && obs[|obs| - 1] == Ready
    case InstanceAllocating => LatestOf(obs, Pending, Provisioning) == Some(Pending)
    case InstanceProvisioning => LatestOf(obs, Provisioning, Configuring) == Some(Provisioning)
    case InstanceBootstrapping => LatestOf(obs, Configuring, Ready) == Some(Configuring)
    case InstanceTerminating => Terminating in obs
    case InstanceError => Error in obs
    case _ => false
  }

  ghost predicate MatchesHistory(cs: seq<Condition>, obs: seq<InstanceStatus>) {
    && UniqueKinds(cs)
    && forall kind :: InstanceKind(kind) ==> (Has(cs, kind, True) <==> Shown(obs, kind))
  }

  /** The status an observation writes to an instance condition, if it writes it. */
  function Written(status: InstanceStatus, kind: Kind): Option<Truth> {
    match kind
    case InstanceAllocating =>
      if status.Pending? then Some(True) else if status.Provisioning? then Some(False) else None
    case InstanceProvisioning =>
      if status.Provisioning? then Some(True) else if status.Configuring? then Some(False) else None
    case InstanceBootstrapping =>
      if status.Configuring? then Some(True) else if status.Ready? then Some(False) else None
    case InstanceReady => Some(if status.Ready? then True else False)
    case InstanceTerminating => if status.Terminating? then Some(True) else None
    case InstanceError => if status.Error? then Some(True) else None
    case _ => None
  }

  lemma LastInstanceOp(status: InstanceStatus, kind: Kind)
    ensures var op := LastOp(InstanceOps(status), kind);
            Written(status, kind) == if op.Some? then Some(op.value.status) else None
  {
    match status {
      case Pending => LastOpShort(InstanceOps(Pending), kind);
      case Provisioning => LastOpShort(InstanceOps(Provisioning), kind);
      case Configuring => LastOpShort(InstanceOps(Configuring), kind);
      case Ready => LastOpShort(InstanceOps(Ready), kind);
      case Updating => LastOpShort(InstanceOps(Updating), kind);
      case Rebooting => LastOpShort(InstanceOps(Rebooting), kind);
      case Terminating => LastOpShort(InstanceOps(Terminating), kind);
      case Error => LastOpShort(InstanceOps(Error), kind);
      case Other(_) => LastOpShort(InstanceOps(status), kind);
    }
  }

  /** What a whole Update leaves at an instance condition. */
  lemma UpdateWrites(cs: seq<Condition>, inst: Instance, replies: Replies, now: int, limit: int, kind: Kind)
    requires InstanceKind(kind)
    ensures var cs' := ApplyOps(cs, UpdateOps(cs, inst, replies, now, limit), now);
            var w := if inst.status.Some? then Written(inst.status.value, kind) else None;
            Has(cs', kind, True) <==> if w.Some? then w.value == True else Has(cs, kind, True)
  {
    var a, b := ObservedOps(inst.status), HealthEffect(inst.machineId, replies).ops;
    var c := if TimedOut(cs, inst.status, now, limit) then [TimeoutOp(limit)] else [];
    HealthOpsKinds(inst.machineId, replies);
    LastOpNone(b, kind);
    LastOpAppend(a, b, kind);
    LastOpAppend(a + b, c, kind);
    LastOpShort(c, kind);
    if inst.status.Some? {
      LastInstanceOp(inst.status.value, kind);
    }
    FindApplyOps(cs, a + b + c, now, kind);
  }

  lemma ShownSnoc(obs: seq<InstanceStatus>, status: InstanceStatus, kind: Kind)
    requires InstanceKind(kind)
    ensures Shown(obs + [status], kind) <==>
            if Written(status, kind).Some? then Written(status, kind).value == True else Shown(obs, kind)
  {
    assert (obs + [status])[..|obs|] == obs;
  }

  lemma UpdateKeepsHistory(cs: seq<Condition>, obs: seq<InstanceStatus>, inst: Instance, replies: Replies,
                           now: int, limit: int)
    requires MatchesHistory(cs, obs)
    ensures MatchesHistory(ApplyOps(cs, UpdateOps(cs, inst, replies, now, limit), now),
                           if inst.status.Some? then obs + [inst.status.value] else obs)
  {
    var ops := UpdateOps(cs, inst, replies, now, limit);
    ApplyOpsKeepsUniqueKinds(cs, ops, now);
    forall kind | InstanceKind(kind)
      ensures Has(ApplyOps(cs, ops, now), kind, True) <==>
              Shown(if inst.status.Some? then obs + [inst.status.value] else obs, kind)
    {
      UpdateWrites(cs, inst, replies, now, limit, kind);
      if inst.status.Some? {
        ShownSnoc(obs, inst.status.value, kind);
      }
    }
  }

  lemma BlockKeepsConditions(cs: seq<Condition>, attempt: int, max: int, alert: string, now: int, kind: Kind)
    requires kind != FaultBlockedCreation && kind != MachineHealthy
    ensures Find(ApplyOps(cs, BlockOps(attempt, max, alert), now), kind) == Find(cs, kind)
  {
    LastOpNone(BlockOps(attempt, max, alert), kind);
    FindApplyOps(cs, BlockOps(attempt, max, alert), now, kind);
  }

  /** The condition list is a function of the history: types stay unique, and
      each instance condition is True exactly as the observations since the
      recorded Create say, whatever health answers, timeouts and blocked
      Creates came between. */
  lemma ConditionsMatchHistory(s: MachineStatus, es: seq<Event>, k: nat, cfg: Config)
    requires LastCreate(es, k)
    ensures MatchesHistory(Replay(s, es, cfg).provider.conditions, Observed(es[k + 1..]))
  {
    var start := Replay(s, es[..k + 1], cfg);
    ReplayEndsInCreate(s, es[..k + 1], cfg);
    FreshStatusShowsNothing(es[k].inst, es[k].at);
    HistoryAccumulates(start, es[k + 1..], cfg);
    ReplaySplit(s, es, k + 1, cfg);
  }

  lemma {:induction false} HistoryAccumulates(s: MachineStatus, es: seq<Event>, cfg: Config)
    requires MatchesHistory(s.provider.conditions, [])
    requires forall e :: e in es ==> !e.Created?
    ensures MatchesHistory(Replay(s, es, cfg).provider.conditions, Observed(es))
  {
    if es != [] {
      var init, last := es[..|es| - 1], es[|es| - 1];
      HistoryAccumulates(s, init, cfg);
      StepKeepsHistory(Replay(s, init, cfg), last, cfg, Observed(init));
    }
  }

  lemma ReplayEndsInCreate(s: MachineStatus, es: seq<Event>, cfg: Config)
    requires es != [] && es[|es| - 1].Created?
    ensures Replay(s, es, cfg).provider == AfterCreate(es[|es| - 1].inst, es[|es| - 1].at)
  {
  }

  lemma FreshStatusShowsNothing(inst: Instance, at: int)
    ensures MatchesHistory(AfterCreate(inst, at).conditions, [])
  {
    var cs := AfterCreate(inst, at).conditions;
    forall kind | InstanceKind(kind)
      ensures !Has(cs, kind, True) && !Shown([], kind)
    {
      IndexIs(cs, kind, 1);
    }
  }

  lemma StepKeepsHistory(s: MachineStatus, e: Event, cfg: Config, obs: seq<InstanceStatus>)
    requires !e.Created? && MatchesHistory(s.provider.conditions, obs)
    ensures MatchesHistory(Apply(s, e, cfg).provider.conditions,
                           if e.Updated? && e.inst.status.Some? then obs + [e.inst.status.value] else obs)
  {
    var cs := s.provider.conditions;
    match e {
      case Updated(inst, replies, at) =>
        UpdateKeepsHistory(cs, obs, inst, replies, at, cfg.timeout);
      case Blocked(target, alert, at) =>
        var attempt := NextAttempt(cs);
        ApplyOpsKeepsUniqueKinds(cs, BlockOps(attempt, cfg.maxBlocks, alert), at);
        forall kind | InstanceKind(kind)
          ensures Has(Apply(s, e, cfg).provider.conditions, kind, True) <==> Has(cs, kind, True)
        {
          BlockKeepsConditions(cs, attempt, cfg.maxBlocks, alert, at, kind);
        }
    }
  }

  // ---------- the same, written out on statuses and positions ----------

  /** The latest of two statuses is the first of them iff it occurs with no second one after it. */
  lemma {:induction false} LatestByPosition(obs: seq<InstanceStatus>, a: InstanceStatus, b: InstanceStatus)
    requires a != b
    ensures LatestOf(obs, a, b) == Some(a) <==>
            exists i :: 0 <= i < |obs| && obs[i] == a && forall j :: i < j < |obs| ==> obs[j] != b
  {
    if obs != [] {
      var n := |obs| - 1;
      if obs[n] != a && obs[n] != b {
        LatestByPosition(obs[..n], a, b);
        if i :| 0 <= i < n && obs[..n][i] == a && forall j :: i < j < n ==> obs[..n][j] != b {
          assert obs[i] == a && forall j :: i < j < n ==> obs[j] == obs[..n][j];
        }
        if i :| 0 <= i < |obs| && obs[i] == a && forall j :: i < j < |obs| ==> obs[j] != b {
          assert obs[..n][i] == a && forall j :: i < j < n ==> obs[..n][j] == obs[j];
        }
      } else if obs[n] == a {
        assert 0 <= n < |obs| && obs[n] == a;
      }
    }
  }

  /** What the conditions say after any history, by the statuses that the
      Updates since the recorded Create have observed. */
  lemma ConditionsByObservation(s: MachineStatus, es: seq<Event>, k: nat, cfg: Config,
                                cs: seq<Condition>, obs: seq<InstanceStatus>)
    requires LastCreate(es, k)
    requires cs == Replay(s, es, cfg).provider.conditions && obs == Observed(es[k + 1..])
    ensures forall i, j :: 0 <= i < j < |cs| ==> cs[i].kind != cs[j].kind
    ensures (exists c :: c in cs && c.kind == InstanceReady && c.status == True)
            <==> obs != [] && obs[|obs| - 1] == Ready
    ensures (exists c :: c in cs && c.kind == InstanceError && c.status == True) <==> Error in obs
    ensures (exists c :: c in cs && c.kind == InstanceTerminating && c.status == True) <==> Terminating in obs
    ensures (exists c :: c in cs && c.kind == InstanceAllocating && c.status == True) <==>
            exists i :: 0 <= i < |obs| && obs[i] == Pending && forall j :: i < j < |obs| ==> obs[j] != Provisioning
    ensures (exists c :: c in cs && c.kind == InstanceProvisioning && c.status == True) <==>
            exists i :: 0 <= i < |obs| && obs[i] == Provisioning && forall j :: i < j < |obs| ==> obs[j] != Configuring
    ensures (exists c :: c in cs && c.kind == InstanceBootstrapping && c.status == True) <==>
            exists i :: 0 <= i < |obs| && obs[i] == Configuring && forall j :: i < j < |obs| ==> obs[j] != Ready
  {
    ConditionsMatchHistory(s, es, k, cfg);
    MatchesByObservation(cs, obs);
  }

  lemma MatchesByObservation(cs: seq<Condition>, obs: seq<InstanceStatus>)
    requires MatchesHistory(cs, obs)
    ensures forall i, j :: 0 <= i < j < |cs| ==> cs[i].kind != cs[j].kind
    ensures (exists c :: c in cs && c.kind == InstanceReady && c.status == True)
            <==> obs != [] && obs[|obs| - 1] == Ready
    ensures (exists c :: c in cs && c.kind == InstanceError && c.status == True) <==> Error in obs
    ensures (exists c :: c in cs && c.kind == InstanceTerminating && c.status == True) <==> Terminating in obs
    ensures (exists c :: c in cs && c.kind == InstanceAllocating && c.status == True) <==>
            exists i :: 0 <= i < |obs| && obs[i] == Pending && forall j :: i < j < |obs| ==> obs[j] != Provisioning
    ensures (exists c :: c in cs && c.kind == InstanceProvisioning && c.status == True) <==>
            exists i :: 0 <= i < |obs| && obs[i] == Provisioning && forall j :: i < j < |obs| ==> obs[j] != Configuring
    ensures (exists c :: c in cs && c.kind == InstanceBootstrapping && c.status == True) <==>
            exists i :: 0 <= i < |obs| && obs[i] == Configuring && forall j :: i < j < |obs| ==> obs[j] != Ready
  {
    LatestByPosition(obs, Pending, Provisioning);
    LatestByPosition(obs, Provisioning, Configuring);
    LatestByPosition(obs, Configuring, Ready);
    forall kind | InstanceKind(kind)
      ensures (exists c :: c in cs && c.kind == kind && c.status == True) <==> Shown(obs, kind)
    {
      HasByEntry(cs, kind, True);
    }
    assert InstanceKind(InstanceReady) && InstanceKind(InstanceError) && InstanceKind(InstanceTerminating);
    assert InstanceKind(InstanceAllocating) && InstanceKind(InstanceProvisioning)
           && InstanceKind(InstanceBootstrapping);
  }

  // ---------- the regular start-up path ----------

  function Stage(status: InstanceStatus): int {
    match status
    case Pending => 0
    case Provisioning => 1
    case Configuring => 2
    case Ready => 3
    case _ => -1
  }

  /** Pending, Provisioning, Configuring, Ready in this order, each seen any
      number of times, possibly not yet all of them. */
  ghost predicate RegularStartUp(obs: seq<InstanceStatus>) {
    && obs != [] && obs[0] == Pending
    && (forall i :: 0 <= i < |obs| ==> Stage(obs[i]) >= 0)
    && (forall i :: 0 < i < |obs| ==> Stage(obs[i]) == Stage(obs[i - 1]) || Stage(obs[i]) == Stage(obs[i - 1]) + 1)
  }

  ghost predicate StageShown(cs: seq<Condition>, stage: int) {
    && (Has(cs, InstanceAllocating, True) <==> stage == 0)
    && (Has(cs, InstanceProvisioning, True) <==> stage == 1)
    && (Has(cs, InstanceBootstrapping, True) <==> stage == 2)
    && (Has(cs, InstanceReady, True) <==> stage == 3)
  }

  lemma {:induction false} LatestOnStartUp(obs: seq<InstanceStatus>)
    requires RegularStartUp(obs)
    ensures var stage := Stage(obs[|obs| - 1]);
            && LatestOf(obs, Pending, Provisioning) == Some(if stage == 0 then Pending else Provisioning)
            && LatestOf(obs, Provisioning, Configuring)
               == (if stage == 0 then None else Some(if stage == 1 then Provisioning else Configuring))
            && LatestOf(obs, Configuring, Ready)
               == (if stage <= 1 then None else Some(if stage == 2 then Configuring else Ready))
  {
    var init := obs[..|obs| - 1];
    if init != [] {
      LatestOnStartUp(init);
    } else {
      assert forall a, b :: LatestOf(init, a, b) == None;
    }
  }

  /** On the regular path exactly one of Allocating, Provisioning,
      Bootstrapping and Ready is True: the one of the current stage. */
  lemma ExactlyOneStage(s: MachineStatus, es: seq<Event>, k: nat, cfg: Config, obs: seq<InstanceStatus>)
    requires LastCreate(es, k)
    requires obs == Observed(es[k + 1..]) && RegularStartUp(obs)
    ensures StageShown(Replay(s, es, cfg).provider.conditions, Stage(obs[|obs| - 1]))
  {
    ConditionsMatchHistory(s, es, k, cfg);
    StartUpShown(Replay(s, es, cfg).provider.conditions, obs);
  }

  lemma StageIsLast(obs: seq<InstanceStatus>)
    requires RegularStartUp(obs)
    ensures 0 <= Stage(obs[|obs| - 1]) <= 3 && (Stage(obs[|obs| - 1]) == 3 <==> obs[|obs| - 1] == Ready)
  {
  }

  lemma StartUpShown(cs: seq<Condition>, obs: seq<InstanceStatus>)
    requires MatchesHistory(cs, obs) && RegularStartUp(obs)
    ensures StageShown(cs, Stage(obs[|obs| - 1]))
  {
    LatestOnStartUp(obs);
    StageIsLast(obs);
    assert InstanceKind(InstanceAllocating) && InstanceKind(InstanceProvisioning);
    assert InstanceKind(InstanceBootstrapping) && InstanceKind(InstanceReady);
  }

  // ---------- the provisioning timeout ----------

  /** Time 0 is the unset time, which the timeout check passes over. */
  lemma ProvisionedSinceCreate(s: MachineStatus, es: seq<Event>, k: nat, cfg: Config)
    requires LastCreate(es, k)
    ensures ProvisionedAt(Replay(s, es, cfg).provider.conditions) == if es[k].at == 0 then None else Some(es[k].at)
  {
    ReplayEndsInCreate(s, es[..k + 1], cfg);
    var start := Replay(s, es[..k + 1], cfg);
    FreshProvisionedAt(es[k].inst, es[k].at);
    ProvisionedTimeKept(start, es[k + 1..], cfg);
    ReplaySplit(s, es, k + 1, cfg);
  }

  lemma FreshProvisionedAt(inst: Instance, at: int)
    ensures ProvisionedAt(AfterCreate(inst, at).conditions) == if at == 0 then None else Some(at)
  {
    assert AfterCreate(inst, at).conditions[1..] == [];
  }

  /** Neither Updates nor blocked Creates move the time of InstanceProvisioned. */
  lemma {:induction false} ProvisionedTimeKept(s: MachineStatus, es: seq<Event>, cfg: Config)
    requires forall e :: e in es ==> !e.Created?
    ensures ProvisionedAt(Replay(s, es, cfg).provider.conditions) == ProvisionedAt(s.provider.conditions)
  {
    if es != [] {
      var init, last := es[..|es| - 1], es[|es| - 1];
      ProvisionedTimeKept(s, init, cfg);
      StepKeepsProvisioned(Replay(s, init, cfg), last, cfg);
    }
  }

  lemma StepKeepsProvisioned(s: MachineStatus, e: Event, cfg: Config)
    requires !e.Created?
    ensures ProvisionedAt(Apply(s, e, cfg).provider.conditions) == ProvisionedAt(s.provider.conditions)
  {
    var cs := s.provider.conditions;
    match e {
      case Updated(inst, replies, at) =>
        UpdateOpsKinds(cs, inst, replies, at, cfg.timeout);
        ProvisionedAtStable(cs, UpdateOps(cs, inst, replies, at, cfg.timeout), at);
      case Blocked(target, alert, at) =>
        ProvisionedAtStable(cs, BlockOps(NextAttempt(cs), cfg.maxBlocks, alert), at);
    }
  }

  /** An Update declares the provisioning timeout exactly when the instance is
      still Pending, Provisioning or Configuring and more than the timeout has
      passed since the Create that recorded it; otherwise the failure stays. */
  lemma TimeoutIsSound(s: MachineStatus, es: seq<Event>, k: nat, cfg: Config, inst: Instance,
                      replies: Replies, now: int)
    requires LastCreate(es, k)
    ensures var before := Replay(s, es, cfg);
            var after := Replay(s, es + [Updated(inst, replies, now)], cfg);
            if (inst.status == Some(Pending) || inst.status == Some(Provisioning) || inst.status == Some(Configuring))
               && es[k].at != 0 && now - es[k].at > cfg.timeout
            then
              && after.failure == Some(TimeoutFailure(inst.status.value, cfg.timeout))
              && after.failure.value.reason == "ProvisioningTimeout"
            else after.failure == before.failure
  {
    ProvisionedSinceCreate(s, es, k, cfg);
    ReplayOne(s, es, Updated(inst, replies, now), cfg);
  }

  // ---------- the fault-block counter ----------

  /** Blocked Creates since the last recorded Create. */
  function BlocksSinceCreate(es: seq<Event>): nat {
    if es == [] then 0
    else
      BlocksAfter(BlocksSinceCreate(es[..|es| - 1]), es[|es| - 1])
  }

  function BlocksAfter(blocks: nat, e: Event): nat {
    match e
    case Created(_, _) => 0
    case Updated(_, _, _) => blocks
    case Blocked(_, _, _) => blocks + 1
  }

  lemma {:induction false} FirstTrueIsFound(cs: seq<Condition>, kind: Kind)
    ensures Has(cs, kind, True) ==> FirstTrueReason(cs, kind) == Some(Find(cs, kind).value.reason)
    ensures Find(cs, kind).None? ==> FirstTrueReason(cs, kind) == None
  {
    if cs != [] && cs[0].kind != kind {
      FirstTrueIsFound(cs[1..], kind);
    }
  }

  /** The counter stored in the reason text: the number of blocks, in 64 bits. */
  ghost predicate Counts(cs: seq<Condition>, blocks: nat) {
    if blocks == 0 then Find(cs, FaultBlockedCreation) == None
    else Has(cs, FaultBlockedCreation, True)
         && Find(cs, FaultBlockedCreation).value.reason == FaultReason(Decimal.Int64(blocks))
  }

  lemma NextAttemptCounts(cs: seq<Condition>, blocks: nat)
    requires Counts(cs, blocks)
    ensures NextAttempt(cs) == Decimal.Int64(blocks + 1)
  {
    FirstTrueIsFound(cs, FaultBlockedCreation);
    if blocks > 0 {
      var stored := Decimal.Int64(blocks);
      var reason := FaultReason(stored);
      assert FAULT_PREFIX <= reason && reason[|FAULT_PREFIX|..] == Decimal.PrintInt(stored);
      Decimal.ScanPrint(stored);
      Decimal.Int64Next(blocks);
    }
  }

  lemma BlockAdvances(cs: seq<Condition>, blocks: nat, max: int, alert: string, now: int)
    requires Counts(cs, blocks)
    ensures Counts(ApplyOps(cs, BlockOps(NextAttempt(cs), max, alert), now), blocks + 1)
  {
    NextAttemptCounts(cs, blocks);
    var ops := BlockOps(NextAttempt(cs), max, alert);
    LastOpShort(ops, FaultBlockedCreation);
    FindApplyOps(cs, ops, now, FaultBlockedCreation);
  }

  /** Over every history the stored reason is exactly "FaultBlocked_k" after k
      blocked Creates since the last recorded one, and absent for k = 0. Beyond
      the 64 bits of Go's int, k wraps. */
  lemma FaultReasonText(s: MachineStatus, es: seq<Event>, cfg: Config, k: nat)
    requires Find(s.provider.conditions, FaultBlockedCreation) == None
    requires k == BlocksSinceCreate(es) && 0 < k <= 0x7FFF_FFFF_FFFF_FFFF
    ensures exists c :: c in Replay(s, es, cfg).provider.conditions
                        && c.kind == FaultBlockedCreation && c.status == True
                        && c.reason == "FaultBlocked_" + Decimal.Print(k)
  {
    FaultCounterIsExact(s, es, cfg);
    var cs := Replay(s, es, cfg).provider.conditions;
    assert Find(cs, FaultBlockedCreation).value in cs;
  }

  lemma {:induction false} FaultCounterIsExact(s: MachineStatus, es: seq<Event>, cfg: Config)
    requires Find(s.provider.conditions, FaultBlockedCreation) == None
    ensures Counts(Replay(s, es, cfg).provider.conditions, BlocksSinceCreate(es))
  {
    if es != [] {
      var init, last := es[..|es| - 1], es[|es| - 1];
      FaultCounterIsExact(s, init, cfg);
      StepCounts(Replay(s, init, cfg), last, cfg, BlocksSinceCreate(init));
    }
  }

  lemma StepCounts(s: MachineStatus, e: Event, cfg: Config, blocks: nat)
    requires Counts(s.provider.conditions, blocks)
    ensures Counts(Apply(s, e, cfg).provider.conditions, BlocksAfter(blocks, e))
  {
    var cs := s.provider.conditions;
    match e {
      case Created(inst, at) =>
        IndexIs(AfterCreate(inst, at).conditions, FaultBlockedCreation, 1);
      case Updated(inst, replies, at) =>
        UpdateOpsKinds(cs, inst, replies, at, cfg.timeout);
        LastOpNone(UpdateOps(cs, inst, replies, at, cfg.timeout), FaultBlockedCreation);
        FindApplyOps(cs, UpdateOps(cs, inst, replies, at, cfg.timeout), at, FaultBlockedCreation);
      case Blocked(target, alert, at) =>
        BlockAdvances(cs, blocks, cfg.maxBlocks, alert, at);
    }
  }

  predicate EscalatesIff(due: bool, before: MachineStatus, after: MachineStatus) {
    if due then after.failure.Some? && after.failure.value.reason == "PreFlightHealthCheckFailed"
    else after.failure == before.failure
  }

  /** After any history, the next block, the k-th in a row, escalates to
      ErrorReason exactly when k reaches the maximum. */
  lemma EscalatesAtMaximum(s: MachineStatus, es: seq<Event>, cfg: Config, before: MachineStatus, blocks: nat, e: Event)
    requires Find(s.provider.conditions, FaultBlockedCreation) == None
    requires before == Replay(s, es, cfg) && blocks == BlocksSinceCreate(es) && e.Blocked?
    ensures EscalatesIff(Decimal.Int64(blocks + 1) >= cfg.maxBlocks, before, Apply(before, e, cfg))
    ensures var after := Apply(before, e, cfg);
            blocks < 0x7FFF_FFFF_FFFF_FFFF ==>
              if blocks + 1 >= cfg.maxBlocks
              then after.failure.Some? && after.failure.value.reason == "PreFlightHealthCheckFailed"
              else after.failure == before.failure
  {
    FaultCounterIsExact(s, es, cfg);
    BlockEscalates(before, blocks, e, cfg);
  }

  lemma BlockEscalates(s: MachineStatus, blocks: nat, e: Event, cfg: Config)
    requires Counts(s.provider.conditions, blocks) && e.Blocked?
    ensures EscalatesIff(Decimal.Int64(blocks + 1) >= cfg.maxBlocks, s, Apply(s, e, cfg))
  {
    NextAttemptCounts(s.provider.conditions, blocks);
  }
}
