# Machine provider for NICo: a Dafny model

The controller gives each Kubernetes Machine one bare-metal instance in a
remote cloud (NICo). It keeps three stores in step that fail independently: the
persisted Machine, the cloud, and process-wide gauges. This project models that
controller, its admission webhook, its provider IDs and its BareMetalHost sync,
and proves what they keep over every run.

`dafny verify dfyconfig.toml` checks the whole project.

## Layout

| files | content |
|---|---|
| `Protocol`, `Safety`, `Theorems` | the life of one Machine as a step system, its invariant, and the claims about every run |
| `Script`, `CallOrder`, `Environment`, `Reconciler` | the calls each controller method makes, their order and what the last one decides, the world as an object, and the controller as methods that edit objects and call the world; every execution is a run of the step system |
| `Conditions`, `Provider`, `StatusObject` | the condition list, what each status write means, and the code that performs it in place |
| `History`, `Idempotence`, `Fleet` | the status as a function of its history, repeated Updates, gauge and report clean-up over a fleet |
| `Health`, `PreFlight`, `Topology`, `Decimal` | alerts and the two health sources, the gate before a targeted Create, topology labels, decimal text |
| `ProviderSpec`, `Webhook`, `ProviderId`, `Uuid` | the spec and the request built from it, admission, provider IDs |
| `SkuCache`, `HostMapper`, `HostSync` | the cached SKU index, the hardware arithmetic, the BareMetalHost sync |

## The step system

A state holds the persisted Machine with every version it has had, the live
cloud instances, the point the current reconcile has reached with the object it
holds in memory, and the history: recorded status writes, acknowledged deletes,
instances that no one recorded. Every remote call and every write succeeds,
fails without effect, or takes effect and then reports a failure. Users, other
controllers, the cloud and process crashes act between any two steps. Assumed
are: one reconcile per Machine at a time, writes fail on a stale version, only
the controller removes its finalizers, a missing instance is truthfully
missing, an instance ID is never given out twice. A reconcile may start from
any past version of the Machine, as from a cache that lags.

In `Environment` and `Reconciler` the same behaviour is a set of methods. Each
method of `World` is one call and takes one step. The contracts of the
controller's methods name the point at which they start and end, the calls
they make in order (`Script`), and the status write among them; that write is
also the unit of the fleet model, so its gauge and clean-up are those of the
controller.

## What the proofs found

- At most one undeleted instance exists if every read shows the instance that is
  recorded at that moment and no instance is lost (`Theorems.AtMostOneInstance`).
  With a stale read there can be two, although nothing is lost
  (`Theorems.StaleReadMakesTwo`). A second one comes from exactly those calls of
  CreateInstance that meet a recorded instance still there (`Theorems.NeverTwoIff`),
  which the read of that reconcile did not show (`Theorems.SecondCreate`).
- CreateInstance does not always run under the controller's finalizer. It does
  so if and only if the finalizer was still there when the reconcile read the
  Machine (`Theorems.CreateUnderFinalizer`); otherwise the Machine can be gone while
  a new instance stays behind (`Theorems.StaleReadLeavesOrphan`).
- The controller deletes its own k8s-mhc report when a Machine recovers, but
  that report's alert is critical, so as long as the report is returned the
  Machine does not recover (`Fleet.OwnReportIsNeverCleared`).
- The unhealthy gauge is exact only while Updates are persisted and Machines stay:
  deleting an unhealthy Machine leaves it one too high for good.
  `Fleet.GaugeAccounting` says how far each kind of step moves it away.
- A second Update with the same answers changes nothing unless the clock has
  crossed the timeout in between, and then it always does (`Idempotence.UpdateSettles`).
- Site and tenant are immutable only while `providerSpec.value` is present: one
  update without it unlocks both (`Webhook.RemovalUnlocksIdentity`).
- The memory size overflows exactly for an entry above 9223372036854 MB
  (`HostMapper.EntryOverflow`).

## Model

| member | source | states |
|---|---|---|
| Theorems.OrphanAccounting | pkg/actuators/machine/actuator.go:479-549 | In every state of every run each live instance created for the Machine is the recorded one, has an acknowledged delete, is about to be recorded, or was itself lost at an earlier step at which CreateInstance errored or came back empty after taking effect, the status write had no effect, or the process died in between |
| Theorems.TwoInstancesIff | pkg/actuators/machine/actuator.go:667-693 | In a run without such a loss two undeleted live instances coexist exactly while a second one waits for its status write over a recorded one that is still there |
| Theorems.SecondCreate | pkg/actuators/machine/actuator.go:479-495 | When CreateInstance is called without an earlier loss, an undeleted instance exists if and only if the stored Machine records one; the read that this reconcile started from was then older than that record when it was made |
| Theorems.NeverTwoIff | pkg/actuators/machine/actuator.go:479-495 | A run without such a loss never has two undeleted live instances if and only if no successful CreateInstance of it meets a recorded instance that is still there |
| Theorems.AtMostOneInstance | pkg/actuators/machine/actuator.go:667-693 | If every read shows the instance that is recorded at that moment (as a fresh read does) and nothing is lost, there is at most one undeleted live instance, however users, cloud, other controllers, crashes and failures of later steps interleave |
| Theorems.StaleReadMakesTwo | pkg/actuators/machine/actuator.go:527-529 | Without fresh reads it fails: a status write that takes effect but reports a failure, then a retry from the version before it, leave two live instances without any loss, from every Machine that is ready for CreateInstance |
| Theorems.LostGrowth | pkg/actuators/machine/actuator.go:497-529 | Only the named failures ever add an unrecorded instance; it stays accounted for afterwards |
| Theorems.FindRead | pkg/controllers/machine/controller.go:57-117 | Every reconcile on its way to CreateInstance started from one read; since then no finalizer was stripped and the recorded instance stayed the same |
| Theorems.CreateUnderFinalizer | pkg/controllers/machine/controller.go:80-117 | CreateInstance runs while the persisted Machine exists with the controller's finalizer if and only if it still did when this reconcile read its object, that is, no strip had taken effect by then; a fresh read is enough |
| Theorems.StaleReadLeavesOrphan | pkg/controllers/machine/controller.go:57-117 | For every Machine without an instance that is ready for CreateInstance (not being deleted, current finalizer and no other, servable untargeted spec) there is a run in which a stale read breaks that: the Machine is gone and an unrecorded instance stays live |
| Theorems.RecordedInstanceIsGuarded | pkg/controllers/machine/controller.go:119-139 | A Machine that records an instance carries the current or legacy finalizer, or the delete of that instance was acknowledged; once finalizers were stripped or the object is gone, it was acknowledged |
| Theorems.AcknowledgedByCode | pkg/actuators/machine/actuator.go:758-787 | An instance counts as deleted only after a DeleteInstance for it, in the run, that returned an error with status 404 or no error and 200, 202, 204 or 404 |
| Theorems.FinalizersGoAfterDelete | pkg/controllers/machine/controller.go:119-135 | A Machine that records an instance has lost both finalizers, or is gone, only after such an answer about that instance |
| Theorems.GateDecides | pkg/actuators/machine/actuator.go:461-472 | The gate lets a Create through to CreateInstance iff the spec names no machine, or allows an unhealthy one, or no alert of the source in use is marked critical or lacks the warning mark and the latest validation run is completed with all tests passed; otherwise it blocks |
| Theorems.CreateIsGated | pkg/actuators/machine/actuator.go:461-481 | In every run each call of CreateInstance comes from such a gate of the same reconcile and object |
| Theorems.TargetedCreateIsHealthy | pkg/actuators/machine/actuator.go:468-472 | So in every run CreateInstance for a named machine whose spec does not allow an unhealthy one is called only after answers without a critical alert and with a passed latest validation run |
| Theorems.RecreateAfterMissing | pkg/actuators/machine/actuator.go:681-693 | A Machine that records an instance gets to CreateInstance only after the same reconcile was told that it is missing: no data, or an error with status 404 |
| Theorems.FinalizersOnlyStripped | pkg/controllers/machine/controller.go:83-135 | Over all stored versions a finalizer once present stays until the strip, after which the Machine is being deleted and has none again |
| Theorems.StatusIsReplay | pkg/actuators/machine/actuator.go:497-652 | In every reachable state the persisted status is the replay, in order, of exactly the status writes that took effect |
| Theorems.EffectiveWriteIsCurrent | pkg/actuators/machine/actuator.go:527-529 | A status write that takes effect was computed from exactly the status it replaces, and replaces it by the outcome of its event |
| Theorems.ConditionsInEveryRun | pkg/actuators/machine/actuator.go:969-1038 | In every reachable state the instance conditions are what the observations since the recorded Create determine |
| Theorems.FaultCounterInEveryRun | pkg/actuators/machine/actuator.go:1448-1478 | In every reachable state the stored fault-block count is the number of recorded blocks since the last recorded Create |
| Theorems.TimeoutInEveryRun | pkg/actuators/machine/actuator.go:1275-1313 | Whenever the status write of an Update takes effect, it declares ProvisioningTimeout exactly when the observed status is Pending, Provisioning or Configuring and more than the timeout has passed since the Create that recorded the instance |
| Safety.StepKeepsInv | pkg/controllers/machine/controller.go:57-139 | Every enabled step of controller, user, cloud or process keeps the invariant over store, finalizers, program point, instances and history |
| Safety.ReachableInv | pkg/controllers/machine/controller.go:57-139 | That invariant holds in every state of every run |
| Safety.StripKeepsInv | pkg/controllers/machine/controller.go:128-135 | Removing both finalizers keeps the invariant, whether or not the write takes effect or is retried |
| Safety.AcknowledgeKeepsInv | pkg/actuators/machine/actuator.go:764-797 | Every answer to DeleteInstance keeps it; only an acknowledgement leads on to the strip |
| Reconciler.MachineReconciler.Reconcile | pkg/controllers/machine/controller.go:57-78 | One reconcile extends the run of the protocol by exactly the calls of its script, starting with the read, from idle to idle; it returns the result the protocol ends with; gauge and report clean-up change as its status write says; an accepted write was computed from the persisted status |
| Reconciler.MachineReconciler.ReconcileNormal | pkg/controllers/machine/controller.go:80-117 | The calls in order: the finalizer write alone, or Exists and then Create or Update as it says; each end with its own result and requeue interval |
| Reconciler.MachineReconciler.ReconcileDelete | pkg/controllers/machine/controller.go:119-139 | The calls in order: Delete, and only if it did not fail one write that strips both finalizers; every failure is returned |
| CallOrder.ResultByLastCall | pkg/controllers/machine/controller.go:57-160 | The result of every reconcile by its last call: only status 400 of CreateInstance is terminal; requeue after 1 second for a new finalizer, 10 for a Create, 30 for an Update and for every failure of these; failures of read, delete and finalizer writes just fail |
| CallOrder.EachCallFollows | pkg/controllers/machine/controller.go:57-139 | The order of the calls of every reconcile: each comes directly after the one that allows it, with the outcome that call must have had |
| Reconciler.Actuator.Exists | pkg/actuators/machine/actuator.go:655-694 | No recorded ID means absent without a call; an instance leads to Update; no data or an error with status 404 leads to Create; any other error, no client or no spec to a retry |
| Reconciler.Actuator.Create | pkg/actuators/machine/actuator.go:434-556 | The calls in order, with error and status write of every path; it passes the gate if and only if spec, client and tenant allow it, and stops there for a critical fault or a failed validation |
| Reconciler.Actuator.Launch | pkg/actuators/machine/actuator.go:475-495 | CreateInstance with the built request; status 400 is terminal, any other error or an empty answer is not, and only a returned instance is recorded |
| Reconciler.Actuator.RecordProviderId | pkg/actuators/machine/actuator.go:531-549 | The provider ID of organisation, tenant, site and parsed instance ID is written, then DPU services are deployed if the spec has any, up to the first failure |
| Reconciler.Actuator.FreshStatus | pkg/actuators/machine/actuator.go:497-527 | The status of a new instance is built from scratch: nothing of an old status survives, and the only condition is InstanceProvisioned |
| Reconciler.Actuator.CheckPreFlightHealth | pkg/actuators/machine/actuator.go:1432-1446 | Its loops and early returns compute the gate: critical faults first, validation runs only if there is none |
| Reconciler.Actuator.WriteBlock | pkg/actuators/machine/actuator.go:1448-1487 | One status write that stands for the blocked Create, made from the status in memory, and a retry |
| Reconciler.Actuator.Update | pkg/actuators/machine/actuator.go:559-652 | The calls in order: lookup, labels if one changed, health, status; gauge and clean-up change as the status write says, accepted or not, and not at all if the call ends before |
| Reconciler.Actuator.RefreshStatus | pkg/actuators/machine/actuator.go:626-646 | The in-place edits of health, timeout and addresses together produce the specified status |
| Reconciler.Actuator.WriteTopology | pkg/actuators/machine/actuator.go:609-624 | Labels are written, before any status, only if one changed; a failed write ends the Update |
| Reconciler.Actuator.Delete | pkg/actuators/machine/actuator.go:697-797 | Without a recorded instance no call is made; otherwise it succeeds exactly for an error with status 404 or no error and 200, 202, 204 or 404, and the delete is then acknowledged |
| Reconciler.RefreshedConditions | pkg/actuators/machine/actuator.go:559-652 | The condition writes of one Update, done in three groups, compose to one list of upserts, and the health writes do not influence the timeout |
| Reconciler.RefreshAccounting | pkg/actuators/machine/actuator.go:1657-1708 | MachineHealthy around the health check is MachineHealthy around the whole Update |
| Environment.WriteAction | pkg/controllers/machine/controller.go:83-135 | Each metadata write of the controller is one protocol step with the matching continuation for success and failure |
| Environment.World.GetInstance | pkg/actuators/machine/actuator.go:588-596 | One lookup step; whenever the reply means that there is no instance (no data, or an error with status 404), the recorded one is not live |
| Environment.World.CreateInstance | pkg/actuators/machine/actuator.go:479-495 | One step with a request built from the spec; a returned instance is live and new; 400 is terminal, any other error or an empty answer retries |
| Environment.World.DeleteInstance | pkg/actuators/machine/actuator.go:758-787 | One step; the acknowledging replies are those of the code's two branches, and only they lead on to the strip |
| Environment.World.PassGate | pkg/actuators/machine/actuator.go:443-470 | Give up, block or go on, as spec, client, tenant capability and gate decide |
| Environment.World.Update | pkg/controllers/machine/controller.go:83-135 | One step for the metadata write of this point; it succeeds, fails without effect, or takes effect and reports a failure; on success the object in memory is the stored one |
| Environment.World.UpdateStatus | pkg/actuators/machine/actuator.go:527-529 | The same for the status subresource, which is replaced as a whole; an accepted write is recorded as its event and was made from the persisted status |
| Conditions.FindUpsert | pkg/actuators/machine/actuator.go:1028-1038 | Upserting a condition changes the entry of its own type only, and moves its transition time only if the status differs |
| Conditions.FindApplyOps | pkg/actuators/machine/actuator.go:969-1026 | After any sequence of upserts a type shows the last one that names it, or its old entry |
| Conditions.ApplyOpsKeepsUniqueKinds | pkg/actuators/machine/actuator.go:1028-1038 | Types stay unique under any sequence of upserts |
| Conditions.OpsSettle | pkg/actuators/machine/actuator.go:1028-1038 | Repeating a sequence of upserts that agree per type changes nothing, transition times included, although a type may be written twice |
| StatusObject.ProviderStatus.SetCondition | pkg/actuators/machine/actuator.go:1028-1038 | The in-place search and update is the upsert |
| StatusObject.ProviderStatus.IsConditionFalse | pkg/actuators/machine/actuator.go:1684-1694 | True exactly if the condition is present and False |
| StatusObject.ProviderStatus.SetInstanceStateConditions | pkg/actuators/machine/actuator.go:969-1026 | Every branch leaves exactly the specified upserts |
| Provider.ReadyReasons | pkg/actuators/machine/actuator.go:969-1026 | Every observed status ends by writing InstanceReady, with this reason |
| StatusObject.ProviderStatus.UpdateHealthFromReports | pkg/actuators/machine/actuator.go:1715-1794 | Effect of the report path on conditions and labels; the k8s-mhc report of this machine is deleted exactly when MachineHealthy leaves False |
| StatusObject.ProviderStatus.RecordReports | pkg/actuators/machine/actuator.go:1728-1779 | The critical, warning and empty branches compute the specified verdict from the flattened reports |
| StatusObject.ProviderStatus.UpdateHealthFromJson | pkg/actuators/machine/actuator.go:1799-1860 | Effect of the fallback; without health data nothing changes |
| StatusObject.ProviderStatus.UpdateMachineHealth | pkg/actuators/machine/actuator.go:1657-1708 | Which source is used, what it does, and that the gauge moves by the change of MachineHealthy == False |
| StatusObject.ProviderStatus.TrackUnhealthyGauge | pkg/actuators/machine/actuator.go:1698-1708 | The gauge moves by the difference between MachineHealthy being False now and before |
| StatusObject.ProviderStatus.CheckProvisioningTimeout | pkg/actuators/machine/actuator.go:1275-1313 | Fires exactly for an early status past the limit, measured from the first InstanceProvisioned with a time |
| Provider.TimedOutIff | pkg/actuators/machine/actuator.go:1283-1300 | The timeout applies iff the status is Pending, Provisioning or Configuring and more than the limit has passed since the first InstanceProvisioned condition that has a time |
| Provider.UpdateFields | pkg/actuators/machine/actuator.go:598-646 | An Update keeps the recorded instance and takes machine, state, addresses and health labels from the cloud's answers where they have one |
| StatusObject.ProviderStatus.SetAddresses | pkg/actuators/machine/actuator.go:635-645 | Addresses are the interface addresses in order |
| Provider.AddressesInOrder | pkg/actuators/machine/actuator.go:635-645 | Addresses are listed interface by interface, in order |
| StatusObject.ProviderStatus.RecordBlock | pkg/actuators/machine/actuator.go:1448-1478 | The scan for the counter and the two condition writes give the specified blocked status and failure |
| StatusObject.ProviderStatus.CountAttempt | pkg/actuators/machine/actuator.go:1448-1457 | 1 without a True fault-block condition, 2 if the reason of the first one holds no number, else the number after it |
| History.ConditionsMatchHistory | pkg/actuators/machine/actuator.go:969-1038 | For every sequence of writes since the recorded Create: types unique; Ready is True iff the last observed status is Ready; Allocating, Provisioning, Bootstrapping are True iff the latest of their two statuses is the first; Error and Terminating are True iff ever observed |
| History.ConditionsByObservation | pkg/actuators/machine/actuator.go:969-1038 | The same by positions in the list of observed statuses: for example InstanceAllocating is True iff a Pending was observed with no Provisioning after it |
| History.ExactlyOneStage | pkg/actuators/machine/actuator.go:969-1026 | On Pending, Provisioning, Configuring, Ready with repetitions exactly the condition of the current stage is True |
| History.TimeoutIsSound | pkg/actuators/machine/actuator.go:1275-1313 | For every history: an Update sets ProvisioningTimeout iff the status is Pending, Provisioning or Configuring and more than the timeout has passed since the recorded Create, else leaves the failure alone |
| History.ProvisionedTimeKept | pkg/actuators/machine/actuator.go:520-527 | No Update and no blocked Create moves the transition time of InstanceProvisioned |
| History.FaultCounterIsExact | pkg/actuators/machine/actuator.go:1448-1478 | After k blocks since the last recorded Create the stored reason is exactly FaultBlocked_k (k in the width of int), and absent for k = 0 |
| History.FaultReasonText | pkg/actuators/machine/actuator.go:1448-1478 | After k blocks in a row, up to the largest int, there is a True FaultBlockedCreation condition whose reason is the text FaultBlocked_ followed by k in decimal |
| History.EscalatesAtMaximum | pkg/actuators/machine/actuator.go:1465-1474 | The k-th block sets the failure iff k reaches the maximum, otherwise leaves it |
| Decimal.ScanPrint | pkg/actuators/machine/actuator.go:1448-1460 | Scanning a printed number gives it back, for every 64-bit int |
| Decimal.PrintSample | pkg/actuators/machine/actuator.go:1459-1461 | Numbers are printed in decimal, most significant digit first |
| Idempotence.UpdateSettles | pkg/actuators/machine/actuator.go:559-652 | A second Update with the same answers changes nothing in the status if and only if both clock readings lie on the same side of the timeout |
| Idempotence.UpdateSettlesOutside | pkg/actuators/machine/actuator.go:1374-1421 | It also leaves the gauge and the topology labels alone and deletes no health report |
| Idempotence.UpdateOpsConsistent | pkg/actuators/machine/actuator.go:969-1026 | All condition writes of one Update agree on each type's status |
| Idempotence.UpdateHealthStatus | pkg/actuators/machine/actuator.go:1657-1681 | MachineHealthy after an Update is the health source's verdict, or unchanged if there is none |
| Topology.SetTopologyLabels | pkg/actuators/machine/actuator.go:1374-1421 | Every known non-empty value ends up in its label; a change is reported iff some label changed |
| Topology.TopologyByKey | pkg/actuators/machine/actuator.go:1392-1415 | Which value of the instance goes under which label key, and which labels stay |
| Topology.PutAllSets | pkg/actuators/machine/actuator.go:1374-1421 | Each wanted non-empty label is present with its value afterwards |
| Topology.PutAllLeaves | pkg/actuators/machine/actuator.go:1374-1421 | Labels outside the wanted keys are untouched |
| Topology.LabelsSettle | pkg/actuators/machine/actuator.go:1374-1421 | Applying the labels twice is applying them once |
| Health.ClassifyAlert | pkg/actuators/machine/actuator.go:1620-1638 | Warning iff marked as warning and not as critical; critical by default |
| Health.ClassifyAlerts | pkg/actuators/machine/actuator.go:1605-1616 | The two lists are the critical and the warning alerts in order |
| Health.ClassificationPartitions | pkg/actuators/machine/actuator.go:1605-1616 | Together the two lists are exactly the given alerts, with multiplicity |
| Health.HasRemediatingAlert | pkg/actuators/machine/actuator.go:1642-1651 | True iff some alert carries the remediating classification |
| Health.CheckCriticalFaults | pkg/actuators/machine/actuator.go:1525-1566 | Reports first, JSON health if they are unavailable, message of the first critical alert or a count |
| Health.ReportVerdict | pkg/actuators/machine/actuator.go:1728-1779 | The report path writes MachineHealthy once, False iff some alert is critical, a remediation verdict, and the total alert count as label |
| Health.ReportOnTexts | pkg/actuators/machine/actuator.go:1728-1779 | The report verdict on the texts: MachineHealthy is False iff some alert is marked critical or not marked as a warning; remediation iff some alert is marked remediating |
| Health.JsonVerdict | pkg/actuators/machine/actuator.go:1815-1860 | The same for the fallback |
| Health.JsonOnTexts | pkg/actuators/machine/actuator.go:1815-1859 | The same for the fallback, and the health labels with their texts and values |
| Health.FirstCriticalSpeaks | pkg/actuators/machine/actuator.go:1746-1756 | Reason and message of an unhealthy verdict, and of a blocked Create, are those of the first such alert |
| Health.FlattenInOrder | pkg/actuators/machine/actuator.go:1728-1732 | Alerts are collected report by report, in order |
| Health.SourcesAgree | pkg/actuators/machine/actuator.go:1715-1860 | However alerts are split over reports, both paths give the same status and reason of MachineHealthy and NicoFaultRemediation and the same labels |
| Health.GateAgreesWithUpdate | pkg/actuators/machine/actuator.go:1525-1566 | The critical-fault check blocks iff an Update seeing the same answers would set MachineHealthy False |
| Health.MhcAlertIsCritical | pkg/actuators/machine/actuator.go:1492-1520 | The alert that the controller reports on remediation classifies as critical |
| Fleet.GaugeAccounting | pkg/actuators/machine/actuator.go:1696-1708 | Over any interleaving of reconciles, added and removed Machines and process restarts, the change of the gauge is the change of the number of unhealthy Machines plus exactly the drift of Updates whose write is refused, recorded and blocked Creates, Machines that come or go unhealthy, and restarts |
| Fleet.GaugeConservation | pkg/actuators/machine/actuator.go:1696-1708 | Over any interleaving of Updates whose final status write takes effect, the change of the gauge equals the change of the number of Machines whose MachineHealthy is False |
| Fleet.DeletesAreRecoveries | pkg/actuators/machine/actuator.go:1781-1791 | Over every run the k8s-mhc deletes issued are as many as the False to True transitions that the report path makes of the status it works with, stale or not, accepted or not |
| Fleet.CleanUpIsRecovery | pkg/actuators/machine/actuator.go:1781-1791 | An Update deletes the report iff it makes such a transition, and then no returned report carries a critical alert |
| Fleet.OwnReportIsNeverCleared | pkg/actuators/machine/actuator.go:1499-1512 | As long as the store returns the report that the controller itself posted, no Update ever asks for its deletion |
| PreFlight.LatestIsLatest | pkg/actuators/machine/actuator.go:1582-1588 | The loop selects the first run with the greatest end time among the ended ones, or the first run if none ended |
| PreFlight.LatestIsUnique | pkg/actuators/machine/actuator.go:1582-1588 | That description fits exactly one run |
| PreFlight.LatestByTimes | pkg/actuators/machine/actuator.go:1582-1588 | The latest run by positions and end times: the first with the greatest end time among the ended ones, or the first of all if none ended |
| PreFlight.CheckMachineValidation | pkg/actuators/machine/actuator.go:1571-1599 | Blocks iff that run is not completed or has fewer completed than total tests; unavailable or empty answers never block |
| PreFlight.GateBlocks | pkg/actuators/machine/actuator.go:1432-1447 | The gate's alert exists iff an alert of the health source in use is marked critical or lacks the warning mark, or the latest validation run is not completed or has fewer completed than total tests |
| ProviderSpec.BuildInstanceRequest | pkg/actuators/machine/actuator.go:333-431 | Primary subnet first, additional subnets in order, the chosen target, the operating system or the default boot script, every attachment in order, and each further option exactly if the spec gives it |
| ProviderSpec.RequestFields | pkg/actuators/machine/actuator.go:337-428 | Every field of an allowed request in terms of the spec: target, boot source, options, interfaces and attachments |
| ProviderSpec.ValidIff | pkg/actuators/machine/actuator.go:306-330 | A spec is valid iff it has exactly one target, the four other IDs, and at most ten additional subnets |
| ProviderSpec.ValidSpecRequest | pkg/actuators/machine/actuator.go:306-330 | A valid spec requests 1 to 11 interfaces and exactly one of instance type and machine |
| Webhook.ChainKeepsIdentity | pkg/apis/nicoprovider/v1beta1/webhook.go:165-173 | Along any chain of admitted updates that never removes the value, site and tenant stay or the spec is blank, and a blank spec stays blank |
| Webhook.AdmittedIff | pkg/apis/nicoprovider/v1beta1/webhook.go:36-173 | A request is admitted iff there is no value, or the spec is blank, or it is valid with UUIDs in every ID field and, on an update of a decodable old value, the same site and tenant |
| Webhook.ErroredIff | pkg/apis/nicoprovider/v1beta1/webhook.go:36-86 | Errors are exactly the undecodable objects: the new one, or the old one of an update that would otherwise be admitted; everything else is denied |
| Webhook.IdentityChangesOnlyByRemoval | pkg/apis/nicoprovider/v1beta1/webhook.go:36-86 | Two admitted versions with different identity have a version without a value between them |
| Webhook.RemovalUnlocksIdentity | pkg/apis/nicoprovider/v1beta1/webhook.go:36-86 | Any servable spec can follow any other through one removal, so the previous condition is exact |
| Webhook.AdmittedSpecIsServed | pkg/apis/nicoprovider/v1beta1/webhook.go:88-163 | Every admitted non-blank spec passes the actuator's validation; its request has 1 to 11 interfaces, one target, and UUID subnets |
| ProviderId.RoundTrip | pkg/providerid/providerid.go:51-103 | Parsing a printed ID gives it back if organisation, tenant and site contain no slash and is rejected otherwise; never another ID |
| ProviderId.TextOf | pkg/providerid/providerid.go:51-103 | The printed text in full, and the IDs read from it under the current and the legacy prefix |
| ProviderId.Canonicalisation | pkg/providerid/providerid.go:59-103 | Every accepted text has a canonical nico:// text of four segments with the same meaning, which is its own canonical form |
| ProviderId.LegacySegments | pkg/providerid/providerid.go:73-103 | Three segments under either prefix keep their names and get an empty tenant |
| ProviderId.ParseBody | pkg/providerid/providerid.go:73-103 | Exact outcome for any four names: wrong count iff one contains a slash, then the UUID decides |
| ProviderId.AdmittedSpecRoundTrip | pkg/actuators/machine/actuator.go:531-539 | For every admitted non-blank spec the provider ID that Create writes is read back unchanged if and only if the organisation has no slash and neither have site and tenant where they are spelled in another form than the hyphenated one |
| ProviderId.SplitCount | pkg/providerid/providerid.go:73-75 | Splitting gives one more part than there are slashes |
| Uuid.ParsePrint | pkg/providerid/providerid.go:51-53 | The hyphenated form of section 4 of RFC 9562 is read back as the same 16 bytes |
| Uuid.HexDigits | pkg/providerid/providerid.go:51-53 | Two lower-case digits per byte, the high one first |
| Uuid.PrintedGroups | pkg/providerid/providerid.go:51-53 | A printed UUID has those digits in groups of 8, 4, 4, 4 and 12 with hyphens between |
| Uuid.HyphenatedHasNoSlash | pkg/providerid/providerid.go:73-103 | No 36-character UUID text contains a slash |
| SkuCache.BuildIndex | pkg/controllers/baremetalhost/controller.go:108-120 | The map built by the nested loops knows exactly the machines that some SKU lists, each with the last SKU that lists it |
| SkuCache.Cache.GetSkuMap | pkg/controllers/baremetalhost/controller.go:99-122 | A fresh cache is returned; a failed refresh returns nothing and alters neither map nor expiry; a successful one replaces both, with an expiry 300 seconds later |
| SkuCache.CacheRefinesScan | pkg/controllers/baremetalhost/controller.go:99-122 | For every sequence of calls under a monotone clock, a returned map has for exactly the machines listed by one successful fetch the last SKU listing them; that fetch is this call's, or its expiry was set less than 300 seconds ago |
| SkuCache.NoMapOnlyOnFailedRefresh | pkg/controllers/baremetalhost/controller.go:99-122 | Nothing is returned iff the fetch fails and nothing fresh is cached |
| HostMapper.SumMemory | pkg/controllers/baremetalhost/mapper.go:212-218 | The loop computes the memory size with every step in int64 |
| HostMapper.MemoryBound | pkg/controllers/baremetalhost/mapper.go:212-218 | Within the per-entry limit no step overflows, and exact MiB - k < result <= exact MiB for k > 0 complete entries |
| HostMapper.EntryFloor | pkg/controllers/baremetalhost/mapper.go:212-218 | One complete entry counts the floor of capacity times count, converted from MB to MiB |
| HostMapper.EntryOverflow | pkg/controllers/baremetalhost/mapper.go:212-218 | The byte count of an entry is computed without overflow iff capacity times count is at most 9223372036854 |
| HostMapper.DiskNeverOverflows | pkg/controllers/baremetalhost/mapper.go:219-231 | The byte size of a disk is exact for every uint32 capacity |
| HostMapper.BuildHardwareDetails | pkg/controllers/baremetalhost/mapper.go:165-235 | The accumulated details: last named CPU model and count, memory, one disk and one interface per entry in order |
| HostMapper.DetailFields | pkg/controllers/baremetalhost/mapper.go:165-235 | The hardware details field by field in terms of machine and SKU |
| HostMapper.CpusByPosition | pkg/controllers/baremetalhost/mapper.go:204-211 | CPU model and count are those of the last entries that give them, or empty |
| HostSync.MachineToBaremetalHost | pkg/controllers/baremetalhost/mapper.go:62-112 | Name, labels, online state, addresses and hardware of a machine's host, with their texts |
| HostSync.HostNameInjective | pkg/controllers/baremetalhost/mapper.go:250-252 | Different machines have different host names |
| HostSync.HostReconciler.SyncMachine | pkg/controllers/baremetalhost/controller.go:38-73 | Create or overwrite the host; the rest of an existing object is kept; success is reported iff read and write succeeded |
| HostSync.HostReconciler.Sync | pkg/controllers/baremetalhost/controller.go:180-209 | An unavailable list changes nothing; otherwise the SKU map is fetched once and the whole list is synced with it |
| HostSync.HostReconciler.SyncMachines | pkg/controllers/baremetalhost/controller.go:201-208 | The loop over the list gives the specified store; one machine's failure does not stop the others |
| HostSync.SyncResult | pkg/controllers/baremetalhost/controller.go:180-209 | After a sync each host has the content of the last listed entry whose write took effect, else it is untouched |
| HostSync.Convergence | pkg/controllers/baremetalhost/controller.go:180-209 | A machine whose last entry was written has exactly the content made from that entry and the SKU found for its ID |
| HostSync.UnlistedUntouched | pkg/controllers/baremetalhost/controller.go:180-209 | Hosts of machines not listed are untouched |
| HostSync.Isolation | pkg/controllers/baremetalhost/controller.go:180-209 | How the calls for other machines go does not change a machine's host |
| HostSync.SyncSettles | pkg/controllers/baremetalhost/controller.go:180-209 | Repeating a sync with the same inputs changes nothing |

## Left out

- `nicoClient`, credentials and HTTP: each call is an outcome (answer, error, effect without answer); texts of errors are not modelled.
- JSON encoding of spec and status, and Machines given as unstructured objects: status and spec are values, Machines are typed.
- Events, logs, latency and duration metrics, `APICallErrors` and `MachinesManaged`.
- `checkStatusHistory` and `emitMachineStatusHistory`: they only emit events.
- `hasTargetedInstanceCreation`: a yes or no of the environment.
- The remediation report and delete request that Delete sends along: not part of its control flow. The alert in that report is modelled.
- `getFirmwareMap`, `FirmwareToHostFirmwareComponents`, `syncFirmwareComponents`: what the status write after a Create does depends on how the API server treats the status subresource.
- The body of the request that deploys DPU services: its outcome only.
- Liveness: that a reconcile is started again, and that calls succeed eventually.
- UUID spellings other than 36 characters are a parameter of the parser; nothing is assumed about which texts they are.
- Time: one clock reading per call of the actuator, whole ticks, durations printed as their number of ticks; quoting in messages is not shown.
- `Sscanf` skips leading blanks before a number; a stored reason never has any.
- Strings are sequences of characters, not bytes; lengths are those of ASCII text.
- Process crashes inside a method call: in the step system only, not in the methods of `World`.
- The hardware annotation of a BareMetalHost is kept as the value it encodes; the mutex of the cache has no counterpart, calls are one after another.
- `cmd/manager/main.go`, `pkg/metrics/metrics.go`, registration and deployment files.
- Recorded instance without provider ID, `InstanceError` never cleared, ErrorReason without effect on retries: the code allows these, so nothing is claimed.
