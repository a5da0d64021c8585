/** The unhealthy gauge and the k8s-mhc clean-up, over runs of a whole fleet of
    Machines that come, are reconciled and go, while the process may restart. */
module Fleet {
  import opened Options
  import opened Conditions
  import opened Health
  import opened Provider
  import opened History
  import opened Idempotence

  /** The status the reconcile computed. */
  function Outcome(w: Work, cfg: Config): MachineStatus {
    Apply(w.from, w.event, cfg)
  }

  /** How far the reconcile moves the gauge: Updates only, by the statuses it
      worked with, whatever becomes of the write. */
  function GaugeMove(w: Work, cfg: Config): int {
    if w.event.Updated? then GaugeStep(w.from.provider.conditions, Outcome(w, cfg).provider.conditions) else 0
  }

  /** How many deletes of the k8s-mhc report it issues. */
  function Cleanups(w: Work, cfg: Config): nat {
    if w.event.Updated? && CleansUp(w.from, w.event.inst, w.event.replies, w.event.at, cfg.timeout) then 1 else 0
  }

  datatype Step =
    | Reconciled(name: string, work: Work)
    | Added(name: string, status: MachineStatus)
    | Removed(name: string)
    | Restarted

  /** The persisted statuses, the gauge, and the deletes issued so far. */
  datatype Fleet = Fleet(machines: map<string, MachineStatus>, gauge: int, deletes: nat)

  /** The store takes a status write only from the current status of a Machine that exists. */
  predicate Lands(f: Fleet, name: string, w: Work) {
    w.accepted && name in f.machines && f.machines[name] == w.from
  }

  function Do(f: Fleet, st: Step, cfg: Config): Fleet {
    match st
    case Reconciled(name, w) =>
      Fleet(if Lands(f, name, w) then f.machines[name := Outcome(w, cfg)] else f.machines,
            f.gauge + GaugeMove(w, cfg), f.deletes + Cleanups(w, cfg))
    case Added(name, status) => if name in f.machines then f else f.(machines := f.machines[name := status])
    case Removed(name) => f.(machines := f.machines - {name})
    case Restarted => f.(gauge := 0)
  }

  function Run(f: Fleet, steps: seq<Step>, cfg: Config): Fleet {
    if steps == [] then f else Do(Run(f, steps[..|steps| - 1], cfg), steps[|steps| - 1], cfg)
  }

  predicate Unhealthy(s: MachineStatus) {
    IsFalse(s.provider.conditions, MachineHealthy)
  }

  function UnhealthySet(machines: map<string, MachineStatus>): set<string> {
    set name | name in machines && Unhealthy(machines[name])
  }

  /** How far one step moves the gauge away from the fleet: nothing for an Update
      whose write lands, its whole effect for any other Update, the unhealthy
      verdicts that Creates, blocked Creates, new and removed Machines bring or
      take without the gauge, and everything when the process restarts. */
  function Drift(f: Fleet, st: Step, cfg: Config): int {
    match st
    case Reconciled(name, w) =>
      (match w.event
       case Updated(_, _, _) =>
         if Lands(f, name, w) then 0 else Weight(Unhealthy(Outcome(w, cfg))) - Weight(Unhealthy(w.from))
       case Created(_, _) => if Lands(f, name, w) then Weight(Unhealthy(w.from)) else 0
       case Blocked(_, _, _) => if Lands(f, name, w) then -Weight(!Unhealthy(w.from)) else 0)
    case Added(name, status) => if name in f.machines then 0 else -Weight(Unhealthy(status))
    case Removed(name) => if name in f.machines then Weight(Unhealthy(f.machines[name])) else 0
    case Restarted => -f.gauge
  }

  function TotalDrift(f: Fleet, steps: seq<Step>, cfg: Config): int {
    if steps == [] then 0
    else
      var init := steps[..|steps| - 1];
      TotalDrift(f, init, cfg) + Drift(Run(f, init, cfg), steps[|steps| - 1], cfg)
  }

  lemma CountChange(before: set<string>, after: set<string>, name: string)
    requires before - {name} == after - {name}
    ensures |after| - |before| == Weight(name in after) - Weight(name in before)
  {
    var rest := before - {name};
    assert |before| == |rest| + Weight(name in before);
    assert |after| == |rest| + Weight(name in after);
  }

  /** Of the names, this one alone may change its verdict. */
  lemma UnhealthySetChange(before: map<string, MachineStatus>, after: map<string, MachineStatus>, name: string)
    requires forall other :: other != name ==> (other in before <==> other in after)
    requires forall other :: other != name && other in before ==> before[other] == after[other]
    ensures |UnhealthySet(after)| - |UnhealthySet(before)|
            == Weight(name in after && Unhealthy(after[name])) - Weight(name in before && Unhealthy(before[name]))
  {
    CountChange(UnhealthySet(before), UnhealthySet(after), name);
  }

  lemma CreateClearsUnhealthy(s: MachineStatus, inst: Instance, at: int, cfg: Config)
    ensures !Unhealthy(Apply(s, Created(inst, at), cfg))
  {
    IndexIs(AfterCreate(inst, at).conditions, MachineHealthy, 1);
  }

  lemma BlockMarksUnhealthy(s: MachineStatus, target: string, alert: string, at: int, cfg: Config)
    ensures Unhealthy(Apply(s, Blocked(target, alert, at), cfg))
  {
    var cs := s.provider.conditions;
    var ops := BlockOps(NextAttempt(cs), cfg.maxBlocks, alert);
    LastOpShort(ops, MachineHealthy);
    FindApplyOps(cs, ops, at, MachineHealthy);
  }

  lemma ReconciledDrift(f: Fleet, name: string, w: Work, cfg: Config)
    ensures var f' := Do(f, Reconciled(name, w), cfg);
            f'.gauge - f.gauge
            == |UnhealthySet(f'.machines)| - |UnhealthySet(f.machines)| + Drift(f, Reconciled(name, w), cfg)
  {
    UnhealthySetChange(f.machines, f.machines[name := Outcome(w, cfg)], name);
    match w.event {
      case Updated(_, _, _) =>
      case Created(inst, at) => CreateClearsUnhealthy(w.from, inst, at, cfg);
      case Blocked(target, alert, at) => BlockMarksUnhealthy(w.from, target, alert, at, cfg);
    }
  }

  lemma StepDrift(f: Fleet, st: Step, cfg: Config)
    ensures var f' := Do(f, st, cfg);
            f'.gauge - f.gauge == |UnhealthySet(f'.machines)| - |UnhealthySet(f.machines)| + Drift(f, st, cfg)
  {
    match st {
      case Reconciled(name, w) => ReconciledDrift(f, name, w, cfg);
      case Added(name, status) => UnhealthySetChange(f.machines, f.machines[name := status], name);
      case Removed(name) => UnhealthySetChange(f.machines, f.machines - {name}, name);
      case Restarted =>
    }
  }

  /** Exact accounting over every run: the gauge follows the number of
      unhealthy Machines up to the total drift. */
  lemma {:induction false} GaugeAccounting(f: Fleet, steps: seq<Step>, cfg: Config)
    ensures var f' := Run(f, steps, cfg);
            f'.gauge - f.gauge == |UnhealthySet(f'.machines)| - |UnhealthySet(f.machines)| + TotalDrift(f, steps, cfg)
  {
    if steps != [] {
      var init := steps[..|steps| - 1];
      GaugeAccounting(f, init, cfg);
      StepDrift(Run(f, init, cfg), steps[|steps| - 1], cfg);
    }
  }

  /** Every step is an Update whose status write lands. */
  ghost predicate AllLand(f: Fleet, steps: seq<Step>, cfg: Config) {
    forall i :: 0 <= i < |steps| ==>
      steps[i].Reconciled? && steps[i].work.event.Updated?
      && Lands(Run(f, steps[..i], cfg), steps[i].name, steps[i].work)
  }

  /** Over any interleaving of such Updates the gauge is conserved. */
  lemma GaugeConservation(f: Fleet, steps: seq<Step>, cfg: Config)
    requires AllLand(f, steps, cfg)
    ensures var f' := Run(f, steps, cfg);
            f'.gauge - f.gauge == |UnhealthySet(f'.machines)| - |UnhealthySet(f.machines)|
  {
    GaugeAccounting(f, steps, cfg);
    LandedUpdatesDoNotDrift(f, steps, cfg);
  }

  lemma {:induction false} LandedUpdatesDoNotDrift(f: Fleet, steps: seq<Step>, cfg: Config)
    requires AllLand(f, steps, cfg)
    ensures TotalDrift(f, steps, cfg) == 0
  {
    if steps != [] {
      var n := |steps| - 1;
      assert forall i :: 0 <= i < n ==> steps[..n][..i] == steps[..i];
      LandedUpdatesDoNotDrift(f, steps[..n], cfg);
      assert steps[n].Reconciled?;
    }
  }

  // ---------- clean-up of the controller's own report ----------

  /** A False to True transition of MachineHealthy made by the report path. */
  predicate RecoversByReport(w: Work, cfg: Config) {
    && w.event.Updated? && UsesReports(w.event.inst, w.event.replies)
    && Has(w.from.provider.conditions, MachineHealthy, False)
    && Has(Outcome(w, cfg).provider.conditions, MachineHealthy, True)
  }

  function Recoveries(steps: seq<Step>, cfg: Config): nat {
    if steps == [] then 0
    else
      var init, last := steps[..|steps| - 1], steps[|steps| - 1];
      Recoveries(init, cfg) + if last.Reconciled? && RecoversByReport(last.work, cfg) then 1 else 0
  }

  /** A clean-up is a recovery, and no report then returned carries a critical alert. */
  lemma CleanUpIsRecovery(w: Work, cfg: Config)
    ensures Cleanups(w, cfg) == if RecoversByReport(w, cfg) then 1 else 0
    ensures Cleanups(w, cfg) == 1 ==>
              var reports := w.event.replies.reports.value;
              forall i, a :: 0 <= i < |reports| && a in reports[i] ==> SeverityOf(a) == Warning
  {
    if w.event.Updated? {
      UpdateRecovers(w.from, w.event.inst, w.event.replies, w.event.at, cfg.timeout);
    }
  }

  lemma UpdateRecovers(before: MachineStatus, inst: Instance, replies: Replies, at: int, limit: int)
    ensures CleansUp(before, inst, replies, at, limit) <==>
            && UsesReports(inst, replies) && Has(before.provider.conditions, MachineHealthy, False)
            && Has(AfterUpdate(before, inst, replies, at, limit).provider.conditions, MachineHealthy, True)
    ensures CleansUp(before, inst, replies, at, limit) ==>
              forall i, a :: 0 <= i < |replies.reports.value| && a in replies.reports.value[i]
                ==> SeverityOf(a) == Warning
  {
    var cs := before.provider.conditions;
    UpdateHealthStatus(cs, inst, replies, at, limit, True);
    UpdateHealthStatus(cs, inst, replies, at, limit, False);
    if UsesReports(inst, replies) {
      var reports := replies.reports.value;
      ReportVerdict(reports);
      TwoOps(ReportEffect(reports));
      if CleansUp(before, inst, replies, at, limit) {
        forall i, a | 0 <= i < |reports| && a in reports[i] ensures SeverityOf(a) == Warning {
          FlattenContains(reports, i, a);
        }
      }
    }
  }

  /** Over every run, deletes issued and report-path recoveries are equally many. */
  lemma {:induction false} DeletesAreRecoveries(f: Fleet, steps: seq<Step>, cfg: Config)
    ensures Run(f, steps, cfg).deletes == f.deletes + Recoveries(steps, cfg)
  {
    if steps != [] {
      DeletesAreRecoveries(f, steps[..|steps| - 1], cfg);
      if steps[|steps| - 1].Reconciled? {
        CleanUpIsRecovery(steps[|steps| - 1].work, cfg);
      }
    }
  }

  /** The reports an Update saw include the alert that this controller posts on remediation. */
  ghost predicate SeesOwnReport(e: Event) {
    e.Updated? && UsesReports(e.inst, e.replies)
    && exists i, machineName :: 0 <= i < |e.replies.reports.value| &&
          MhcAlert(machineName) in e.replies.reports.value[i]
  }

  /** So the clean-up never finds the report it deletes: as long as the remote
      store returns that report, no Update of the run asks for its deletion. */
  lemma {:induction false} OwnReportIsNeverCleared(f: Fleet, steps: seq<Step>, cfg: Config)
    requires forall st :: st in steps && st.Reconciled? && st.work.event.Updated? ==> SeesOwnReport(st.work.event)
    ensures Run(f, steps, cfg).deletes == f.deletes
  {
    if steps != [] {
      var init, last := steps[..|steps| - 1], steps[|steps| - 1];
      OwnReportIsNeverCleared(f, init, cfg);
      assert last in steps;
      if last.Reconciled? && last.work.event.Updated? {
        var e := last.work.event;
        var i, machineName :| 0 <= i < |e.replies.reports.value| && MhcAlert(machineName) in e.replies.reports.value[i];
        MhcAlertIsCritical(machineName);
        CleanUpIsRecovery(last.work, cfg);
      }
    }
  }
}
