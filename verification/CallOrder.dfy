/** The order of the calls of a reconcile and what its last call decides, read
    off its script call by call. */
module CallOrder {
  import opened Options
  import opened History
  import opened ProviderSpec
  import opened Topology
  import opened Provider
  import opened Protocol
  import Script
  import ProviderId

  // ---------- the result ----------

  /** The result that goes with the last call. */
  ghost predicate Decides(last: Action, work: Option<Work>, result: Result) {
    match last
    case ReadNotFound => result == Result(0, false)
    case ReadFailed => result == Result(0, true)
    case WriteFinalizer(fate) => result == if fate.Applied? then Result(1, false) else Result(0, true)
    case AskExists(_) => result == Result(30, true)
    case Gate(_, _, _, _) => result == Result(30, true)
    case CallCreate(created, _) =>
      result == if created.CreateFailed? && created.code == Some(400) then Result(0, false) else Result(30, true)
    case WriteProviderId(_, fate) => result == if fate.Applied? then Result(10, false) else Result(30, true)
    case DeployDpu(deployed) => result == if deployed then Result(10, false) else Result(30, true)
    case CallGet(_) => result == Result(30, true)
    case WriteLabels(_) => result == Result(30, true)
    case WriteStatus(fate) =>
      result == if fate.Applied? && work.Some? && work.value.event.Updated? then Result(30, false) else Result(30, true)
    case CallDelete(_) => result == Result(0, true)
    case StripFinalizers(fate) => result == if fate.Applied? then Result(0, false) else Result(0, true)
    case _ => false
  }

  ghost predicate EndsWith(steps: seq<Action>, work: Option<Work>, result: Result) {
    steps != [] && Decides(steps[|steps| - 1], work, result)
  }

  /** Only the last call counts, so calls before it change nothing. */
  lemma EndsLater(steps: seq<Action>, k: nat, work: Option<Work>, result: Result)
    requires k <= |steps| && EndsWith(steps[k..], work, result)
    ensures EndsWith(steps, work, result)
  {
    assert steps[k..][|steps| - k - 1] == steps[|steps| - 1];
  }

  lemma DeployEnds(spec: Spec, steps: seq<Action>, error: Option<Script.ActuatorError>, work: Option<Work>)
    requires Script.Deploy(spec, steps, error) && steps != []
    ensures EndsWith(steps, work, Script.ResultOf(error, Result(10, false)))
  {
  }

  lemma RecordProviderIdEnds(spec: Spec, inst: Instance, org: string, alt: ProviderId.AltUuid, steps: seq<Action>,
                             error: Option<Script.ActuatorError>, work: Option<Work>)
    requires Script.RecordProviderId(spec, inst, org, alt, steps, error)
    ensures EndsWith(steps, work, Script.ResultOf(error, Result(10, false)))
  {
    if steps[0].fate.Applied? && steps[1..] != [] {
      DeployEnds(spec, steps[1..], error, work);
      EndsLater(steps, 1, work, Script.ResultOf(error, Result(10, false)));
    }
  }

  lemma RecordEnds(spec: Spec, inst: Instance, org: string, alt: ProviderId.AltUuid, steps: seq<Action>,
                   error: Option<Script.ActuatorError>, work: Option<Work>)
    requires Script.Record(spec, inst, org, alt, steps, error) && work.Some? && work.value.event.Created?
    ensures EndsWith(steps, work, Script.ResultOf(error, Result(10, false)))
  {
    if steps[0].fate.Applied? {
      RecordProviderIdEnds(spec, inst, org, alt, steps[1..], error, work);
      EndsLater(steps, 1, work, Script.ResultOf(error, Result(10, false)));
    }
  }

  lemma LaunchEnds(m: Machine, spec: Spec, org: string, alt: ProviderId.AltUuid, steps: seq<Action>,
                   error: Option<Script.ActuatorError>, work: Option<Work>)
    requires Script.Launch(m, spec, org, alt, steps, error, work)
    ensures EndsWith(steps, work, Script.ResultOf(error, Result(10, false)))
  {
    if steps[0].created.CreatedInstance? {
      RecordEnds(spec, steps[0].created.inst, org, alt, steps[1..], error, work);
      EndsLater(steps, 1, work, Script.ResultOf(error, Result(10, false)));
    }
  }

  lemma CreateEnds(m: Machine, org: string, alt: ProviderId.AltUuid, steps: seq<Action>,
                   error: Option<Script.ActuatorError>, work: Option<Work>)
    requires Script.Create(m, org, alt, steps, error, work)
    ensures EndsWith(steps, work, Script.ResultOf(error, Result(10, false)))
  {
    if steps[0].admitted {
      if Script.Alert(m.spec.value, steps[0]).None? {
        LaunchEnds(m, m.spec.value, org, alt, steps[1..], error, work);
        EndsLater(steps, 1, work, Script.ResultOf(error, Result(10, false)));
      } else {
        assert steps[1..][0] == steps[1];
      }
    }
  }

  lemma RefreshEnds(status: MachineStatus, inst: Instance, steps: seq<Action>,
                    error: Option<Script.ActuatorError>, work: Option<Work>)
    requires Script.Refresh(status, inst, steps, error, work)
    ensures EndsWith(steps, work, Script.ResultOf(error, Result(30, false)))
  {
  }

  lemma UpdateEnds(m: Machine, steps: seq<Action>, error: Option<Script.ActuatorError>, work: Option<Work>)
    requires Script.Update(m, steps, error, work)
    ensures EndsWith(steps, work, Script.ResultOf(error, Result(30, false)))
  {
    if steps[0].reply.Found? {
      UpdateFromEnds(m, m.spec.value, steps[0].reply.inst, steps[1..], error, work);
      EndsLater(steps, 1, work, Script.ResultOf(error, Result(30, false)));
    }
  }

  lemma UpdateFromEnds(m: Machine, spec: Spec, inst: Instance, steps: seq<Action>,
                       error: Option<Script.ActuatorError>, work: Option<Work>)
    requires Script.UpdateFrom(m, spec, inst, steps, error, work)
    ensures EndsWith(steps, work, Script.ResultOf(error, Result(30, false)))
  {
    if WithTopology(m.labels, inst, spec.instanceTypeId) == m.labels {
      RefreshEnds(m.status, inst, steps, error, work);
    } else if steps[0].fate.Applied? {
      RefreshEnds(m.status, inst, steps[1..], error, work);
      EndsLater(steps, 1, work, Script.ResultOf(error, Result(30, false)));
    }
  }

  lemma NormalEnds(m: Machine, org: string, alt: ProviderId.AltUuid,
                   steps: seq<Action>, result: Result, work: Option<Work>)
    requires Script.Normal(m, org, alt, steps, result, work)
    ensures EndsWith(steps, work, result)
  {
    if m.current {
      var k: nat, exists_ :| k <= |steps| && Script.Exists(m, steps[..k], exists_)
                             && Script.AfterExists(m, org, alt, exists_, steps[k..], result, work);
      if exists_ == Some(false) {
        var error :| Script.Create(m, org, alt, steps[k..], error, work)
                  && result == Script.ResultOf(error, Result(10, false));
        CreateEnds(m, org, alt, steps[k..], error, work);
        EndsLater(steps, k, work, result);
      } else if exists_ == Some(true) {
        var error :| Script.Update(m, steps[k..], error, work) && result == Script.ResultOf(error, Result(30, false));
        UpdateEnds(m, steps[k..], error, work);
        EndsLater(steps, k, work, result);
      } else {
        assert steps[..k][0] == steps[0] && |steps| == k;
      }
    }
  }

  lemma DeletionEnds(m: Machine, steps: seq<Action>, result: Result, work: Option<Work>)
    requires Script.Deletion(m, steps, result)
    ensures EndsWith(steps, work, result)
  {
    assert steps[..1][0] == steps[0];
  }

  lemma ReconcileEnds(found: Option<Machine>, org: string, alt: ProviderId.AltUuid,
                      steps: seq<Action>, result: Result, work: Option<Work>)
    requires Script.Reconcile(found, org, alt, steps, result, work)
    ensures EndsWith(steps, work, result)
  {
    if found.Some? {
      if found.value.deleting {
        DeletionEnds(found.value, steps[1..], result, work);
      } else {
        NormalEnds(found.value, org, alt, steps[1..], result, work);
      }
      EndsLater(steps, 1, work, result);
    }
  }

  /** The requeue interval and error of a reconcile are decided by its last call:
      terminal is only status 400 of CreateInstance, a new finalizer requeues
      after 1 second, a Create after 10, an Update after 30 and so does every
      failure of these; failures of read, delete and finalizer writes just fail. */
  lemma ResultByLastCall(found: Option<Machine>, org: string, alt: ProviderId.AltUuid,
                         steps: seq<Action>, result: Result, work: Option<Work>)
    requires Script.Reconcile(found, org, alt, steps, result, work)
    ensures steps != []
    ensures var last := steps[|steps| - 1];
            && (last.ReadNotFound? ==> result == Result(0, false))
            && (last.ReadFailed? || last.CallDelete? ==> result == Result(0, true))
            && (last.WriteFinalizer? ==> result == if last.fate.Applied? then Result(1, false) else Result(0, true))
            && (last.StripFinalizers? ==> result == if last.fate.Applied? then Result(0, false) else Result(0, true))
            && (last.AskExists? || last.Gate? || last.CallGet? || last.WriteLabels? ==> result == Result(30, true))
            && (last.CallCreate? ==>
                  result == if last.created.CreateFailed? && last.created.code == Some(400) then Result(0, false)
                            else Result(30, true))
            && (last.WriteProviderId? ==> result == if last.fate.Applied? then Result(10, false) else Result(30, true))
            && (last.DeployDpu? ==> result == if last.deployed then Result(10, false) else Result(30, true))
            && (last.WriteStatus? ==>
                  result == if last.fate.Applied? && work.Some? && work.value.event.Updated? then Result(30, false)
                            else Result(30, true))
            && !last.Read? && !last.SkipDelete? && !last.ReadHealth?
  {
    ReconcileEnds(found, org, alt, steps, result, work);
  }

  // ---------- the order ----------

  /** One call directly after another. */
  ghost predicate Follows(p: Action, c: Action) {
    && (c.AskExists? || c.WriteFinalizer? || c.CallDelete? || c.SkipDelete? ==> p.Read?)
    && (c.Gate? ==> p.Read? || (p.AskExists? && (p.reply.NoData? || p.reply == GetFailed(Some(404)))))
    && (c.CallGet? ==> p.AskExists? && p.reply.Found?)
    && (c.CallCreate? ==> p.Gate? && p.admitted)
    && (c.WriteStatus? ==> (p.Gate? && p.admitted) || (p.CallCreate? && p.created.CreatedInstance?) || p.ReadHealth?)
    && (c.WriteProviderId? ==> p.WriteStatus? && p.fate.Applied?)
    && (c.DeployDpu? ==> p.WriteProviderId? && p.fate.Applied?)
    && (c.WriteLabels? ==> p.CallGet? && p.reply.Found?)
    && (c.ReadHealth? ==> (p.CallGet? && p.reply.Found?) || (p.WriteLabels? && p.fate.Applied?))
    && (c.StripFinalizers? ==>
          || p.SkipDelete?
          || (p.CallDelete?
              && if p.deleted.error then p.deleted.code == Some(404)
                 else p.deleted.code == Some(200) || p.deleted.code == Some(202)
                      || p.deleted.code == Some(204) || p.deleted.code == Some(404)))
    && !c.Read? && !c.ReadNotFound? && !c.ReadFailed?
  }

  ghost predicate InOrder(steps: seq<Action>) {
    forall i :: 0 < i < |steps| ==> Follows(steps[i - 1], steps[i])
  }

  lemma OrderFrom(steps: seq<Action>)
    requires steps != [] && InOrder(steps[1..]) && (|steps| > 1 ==> Follows(steps[0], steps[1]))
    ensures InOrder(steps)
  {
    forall i | 0 < i < |steps| ensures Follows(steps[i - 1], steps[i]) {
      if i > 1 {
        assert steps[1..][i - 2] == steps[i - 1] && steps[1..][i - 1] == steps[i];
      }
    }
  }

  lemma RecordOrder(spec: Spec, inst: Instance, org: string, alt: ProviderId.AltUuid, steps: seq<Action>,
                    error: Option<Script.ActuatorError>)
    requires Script.Record(spec, inst, org, alt, steps, error)
    ensures InOrder(steps) && steps != [] && steps[0].WriteStatus?
  {
    if steps[0].fate.Applied? {
      var rest := steps[1..];
      assert rest[0] == steps[1];
      if rest[0].fate.Applied? && rest[1..] != [] {
        assert rest[1..][0] == rest[1];
      }
      OrderFrom(rest);
      OrderFrom(steps);
    }
  }

  lemma CreateOrder(m: Machine, org: string, alt: ProviderId.AltUuid, steps: seq<Action>,
                    error: Option<Script.ActuatorError>, work: Option<Work>)
    requires Script.Create(m, org, alt, steps, error, work)
    ensures InOrder(steps) && steps != [] && steps[0].Gate?
  {
    if steps[0].admitted {
      var rest := steps[1..];
      assert rest[0] == steps[1];
      if Script.Alert(m.spec.value, steps[0]).None? {
        LaunchOrder(m, m.spec.value, org, alt, rest, error, work);
      }
      OrderFrom(steps);
    }
  }

  lemma LaunchOrder(m: Machine, spec: Spec, org: string, alt: ProviderId.AltUuid, steps: seq<Action>,
                    error: Option<Script.ActuatorError>, work: Option<Work>)
    requires Script.Launch(m, spec, org, alt, steps, error, work)
    ensures InOrder(steps) && steps != [] && steps[0].CallCreate?
  {
    if steps[0].created.CreatedInstance? {
      RecordOrder(spec, steps[0].created.inst, org, alt, steps[1..], error);
      assert steps[1..][0] == steps[1];
      OrderFrom(steps);
    }
  }

  lemma UpdateOrder(m: Machine, steps: seq<Action>, error: Option<Script.ActuatorError>, work: Option<Work>)
    requires Script.Update(m, steps, error, work)
    ensures InOrder(steps) && steps != [] && steps[0].CallGet?
  {
    if steps[0].reply.Found? {
      UpdateFromOrder(m, m.spec.value, steps[0].reply.inst, steps[1..], error, work);
      assert steps[1..][0] == steps[1];
      OrderFrom(steps);
    }
  }

  lemma UpdateFromOrder(m: Machine, spec: Spec, inst: Instance, steps: seq<Action>,
                        error: Option<Script.ActuatorError>, work: Option<Work>)
    requires Script.UpdateFrom(m, spec, inst, steps, error, work)
    ensures InOrder(steps) && steps != [] && (steps[0].WriteLabels? || steps[0].ReadHealth?)
  {
    if steps[0].WriteLabels? && steps[0].fate.Applied? {
      assert steps[1..][0] == steps[1];
      OrderFrom(steps);
    }
  }

  lemma AfterExistsOrder(m: Machine, org: string, alt: ProviderId.AltUuid, exists_: Option<bool>,
                         steps: seq<Action>, result: Result, work: Option<Work>)
    requires Script.AfterExists(m, org, alt, exists_, steps, result, work)
    ensures InOrder(steps)
    ensures exists_.None? <==> steps == []
    ensures exists_ == Some(false) ==> steps[0].Gate?
    ensures exists_ == Some(true) ==> steps[0].CallGet?
  {
    if exists_ == Some(false) {
      var error :| Script.Create(m, org, alt, steps, error, work)
                && result == Script.ResultOf(error, Result(10, false));
      CreateOrder(m, org, alt, steps, error, work);
    } else if exists_ == Some(true) {
      var error :| Script.Update(m, steps, error, work) && result == Script.ResultOf(error, Result(30, false));
      UpdateOrder(m, steps, error, work);
    }
  }

  lemma NormalOrder(m: Machine, org: string, alt: ProviderId.AltUuid,
                    steps: seq<Action>, result: Result, work: Option<Work>)
    requires Script.Normal(m, org, alt, steps, result, work)
    ensures InOrder(steps) && steps != [] && (steps[0].WriteFinalizer? || steps[0].AskExists? || steps[0].Gate?)
  {
    if m.current {
      var k: nat, exists_ :| k <= |steps| && Script.Exists(m, steps[..k], exists_)
                             && Script.AfterExists(m, org, alt, exists_, steps[k..], result, work);
      AfterExistsOrder(m, org, alt, exists_, steps[k..], result, work);
      if k == 0 {
        assert steps[0..] == steps;
      } else {
        assert k == 1 && steps[..1][0] == steps[0];
        assert steps[1..] != [] ==> steps[1..][0] == steps[1];
        OrderFrom(steps);
      }
    }
  }

  lemma DeletionOrder(m: Machine, steps: seq<Action>, result: Result)
    requires Script.Deletion(m, steps, result)
    ensures InOrder(steps) && steps != [] && (steps[0].CallDelete? || steps[0].SkipDelete?)
  {
    assert steps[..1][0] == steps[0];
  }

  lemma ReconcileOrder(found: Option<Machine>, org: string, alt: ProviderId.AltUuid,
                       steps: seq<Action>, result: Result, work: Option<Work>)
    requires Script.Reconcile(found, org, alt, steps, result, work)
    ensures InOrder(steps)
  {
    if found.Some? {
      if found.value.deleting {
        DeletionOrder(found.value, steps[1..], result);
      } else {
        NormalOrder(found.value, org, alt, steps[1..], result, work);
      }
      assert steps[1..][0] == steps[1];
      OrderFrom(steps);
    }
  }

  /** Each call of a reconcile comes directly after the one that allows it: no
      CreateInstance without an admitting gate, no gate over a recorded instance
      but after a missing reply, no provider ID without the stored status, no
      status of an Update without the labels, and no strip without a delete that
      was skipped or acknowledged. */
  lemma EachCallFollows(found: Option<Machine>, org: string, alt: ProviderId.AltUuid,
                        steps: seq<Action>, result: Result, work: Option<Work>, i: nat)
    requires Script.Reconcile(found, org, alt, steps, result, work) && 0 < i < |steps|
    ensures var p, c := steps[i - 1], steps[i];
            && (c.AskExists? || c.WriteFinalizer? || c.CallDelete? || c.SkipDelete? ==> p.Read?)
            && (c.Gate? ==> p.Read? || (p.AskExists? && (p.reply.NoData? || p.reply == GetFailed(Some(404)))))
            && (c.CallGet? ==> p.AskExists? && p.reply.Found?)
            && (c.CallCreate? ==> p.Gate? && p.admitted)
            && (c.WriteStatus? ==>
                  (p.Gate? && p.admitted) || (p.CallCreate? && p.created.CreatedInstance?) || p.ReadHealth?)
            && (c.WriteProviderId? ==> p.WriteStatus? && p.fate.Applied?)
            && (c.DeployDpu? ==> p.WriteProviderId? && p.fate.Applied?)
            && (c.WriteLabels? ==> p.CallGet? && p.reply.Found?)
            && (c.ReadHealth? ==> (p.CallGet? && p.reply.Found?) || (p.WriteLabels? && p.fate.Applied?))
            && (c.StripFinalizers? ==>
                  || p.SkipDelete?
                  || (p.CallDelete?
                      && if p.deleted.error then p.deleted.code == Some(404)
                         else p.deleted.code == Some(200) || p.deleted.code == Some(202)
                              || p.deleted.code == Some(204) || p.deleted.code == Some(404)))
            && !c.Read? && !c.ReadNotFound? && !c.ReadFailed?
  {
    ReconcileOrder(found, org, alt, steps, result, work);
    assert Follows(steps[i - 1], steps[i]);
  }
}
