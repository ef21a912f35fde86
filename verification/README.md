# Verification model of the gardenlogin controller

The gardenlogin controller manager keeps, for every `Shoot`, a `ConfigMap` named `<shoot>.kubeconfig` that
carries the rendered kubeconfig of the shoot. This project models the shoot controller and proves what it keeps
in every interleaving of its workers, of the informers that wake it up, and of the other actors that change the
objects it reads.

The files, from the leaves up:

- `Objects.dfy`: keys, optional values, map lookups.
- `Quota.dfy`: partial resource lists, the filter of quota updates, the quota gate.
- `Kubeconfig.dfy`: validation and rendering of kubeconfigs in both layouts, and how a client reads them.
- `Rendering.dfy`: the API objects, the kubeconfig a shoot should have and what a client gets out of it, the filters of
  the other update events.
- `Configuration.dfy`: defaults, file and validation of the controller configuration.
- `Limiter.dfy`: the counters of concurrent reconciles per namespace.
- `Handling.dfy`: one reconcile, as atomic steps and as a whole.
- `Reconciler.dfy`: the reconciler as a class whose methods update it in place, proved against the functions above.
- `QuotaWatch.dfy`: the shoots that a quota event wakes up.
- `System.dfy`: the transition system: objects, undelivered events, work queue, timers, workers, counters.
- `Convergence.dfy`: idle shoots have the right ConfigMap; no quota wake-up is lost; no shoot is given up.
- `Necessity.dfy`: what breaking each condition of convergence costs, and exactly when.
- `LimiterRuns.dfy`: the limiter over all runs.
- `Overshoot.dfy`, `OvershootSharp.dfy`: how far a quota can be exceeded, and that it can be exceeded that far.
- `Quiescence.dfy`: every reconcile is paid for by what was under way or by what others did, and ends; there is a next
  step as long as a shoot is not settled.

## How the system is modelled

A state holds the objects (the informer caches), the events that passed their filter and are not handled yet, the
work queue, the keys waiting for a short timer (after an error or a rejection by the limiter) or for a long one
(quota exceeded, no addresses), the reconciles in flight with the copies of the objects they have read, the
counters and the limit. A reconcile reads the Shoot, the ConfigMap, the quotas and the ShootState in separate
steps and then writes or deletes once; in between, anything may happen. Every API call may fail, with its effect
applied or not. A create or update is one atomic step that writes only if something changes. When the ConfigMap
has disappeared since it was read, the create starts from the copy that was read.

The work queue is the one of controller-runtime: one worker per key, a key added while it runs runs again, at most
`maxConcurrentReconciles` workers. Events of a kind may be handled in any order and any time later.

URL parsing, certificate parsing, version comparison and the encoding of a kubeconfig are function parameters of
the model (`Rendering.Platform`); the cluster identity ConfigMap, which is not watched, is a fixed parameter too.

Convergence is proved for all runs but those with one of these steps (`Convergence.Permitted`): an update of the
Shoot or of the ShootState that the filters lose, unless a reconcile is pending anyway; a ConfigMap with the name of
a kubeconfig that another shoot or nobody owns; an update that takes the ConfigMap constraint out of the spec of a
quota that refuses, which the filter, looking at the status only, does not let through, unless another quota refuses
or more news about quotas is on its way; and a failing list in the quota handler, unless there is more such news or
a quota refuses. `Necessity` shows for each of them, as an equivalence, when it leaves the shoot settled with the
wrong ConfigMap: for the lost updates and the change of an owner from a settled state in sync, for the others from a
settled state without the ConfigMap. Not every such step does harm at once: a change to an unreadable version or
certificate is permitted, and it is the next readable one that is lost; and a change of the owner that keeps label
and data leaves the ConfigMap right but hides its later deletion. Convergence does not rely on the long timers.

Where code and documentation differ, the model follows the code:

- The comment on `LessThan` says that every key of the second list is compared; a key missing in the first list
  is skipped.
- The comments on the quota filter name an increased limit and freed quota, and one of them an increased usage; the
  filter also fires when the limit appears or disappears, and a rising usage alone never passes it.
- The comment on reading the configuration promises a valid one; limits per namespace below one are accepted, and
  then nothing is ever reconciled (`LimiterRuns.LimitBelowOneStarves`).
- The repository's own README names clusters and contexts after the technical shoot name; the code names them
  `<namespace>--<shoot>-<address>`.

## Model

| member | source | states |
|---|---|---|
| Convergence.Convergence | controllers/shoot_controller.go:163-315 | in every reachable state, a shoot with no work pending and none in flight has no ConfigMap if Shoot or ShootState is gone, and otherwise, if a kubeconfig can be rendered, the ConfigMap carries the role label and exactly that kubeconfig, or is missing because a quota of the namespace refuses it now, as the gate would, or because news about the quotas of the namespace is still on its way |
| Convergence.NoLostQuotaWakeUp | controllers/shoot_controller.go:317-379 | a shoot parked by the quota gate and otherwise idle still exists without its ConfigMap, and has a quota in its namespace on which the gate would refuse it again unless news about the quotas is on its way, whatever quotas were added, changed or deleted meanwhile |
| Convergence.IdleShootsAreAccessible | controllers/shoot_controller.go:381-520 | in every reachable state, an idle shoot for which a kubeconfig can be rendered has, under its name with ".kubeconfig", a ConfigMap with the role label and an encoded kubeconfig with which a client gets to it by each of its addresses, or none because a quota refuses or quota news is on its way |
| Convergence.InvariantHolds | controllers/shoot_controller.go:381-520 | the inductive invariant behind both, per shoot: work is pending, or what its reconcile has read is still good enough for what it is about to do, or it is settled correctly |
| Convergence.QuietKeepsCorrect | controllers/shoot_controller.go:163-315 | any combination of dropped events keeps a right ConfigMap right and a parked shoot rightly parked |
| Convergence.QuotaStepsAreQuiet | controllers/shoot_controller.go:318-379 | whatever happens to a quota, a shoot that waits for quota remains blocked by a quota that refuses, or news is on its way |
| Convergence.DeliveriesAreQuiet | controllers/shoot_controller.go:111-155 | handling a quota event requeues every shoot that waits for it; where a failing list is permitted, the shoot remains blocked |
| Convergence.NeverAbandoned | controllers/shoot_controller.go:402-430 | in every run, also with lost events, a shoot whose latest reconcile did not succeed is in flight, queued or waiting for a timer |
| Necessity.VersionUpdateIsHarmlessExactly | controllers/shoot_controller.go:191-209 | an update of the version with the same addresses wakes nobody and is harmless exactly when the version class stays |
| Necessity.UnreadableVersionIsHarmlessExactly | controllers/shoot_controller.go:191-209 | a version replaced by way of an unreadable one wakes nobody; the first update does no harm, and both together are harmless exactly when the version class is the same again |
| Necessity.UnreadableCertificateIsHarmlessExactly | controllers/shoot_controller.go:295-312 | a certificate replaced by way of an unreadable entry wakes nobody and is harmless exactly when it is the same certificate again |
| Necessity.ForeignConfigMapIsNoticedExactly | controllers/shoot_controller.go:98-98 | a ConfigMap that someone else creates under the name of a kubeconfig is noticed exactly when it names the shoot as its owner, and is right exactly when there should be one and it is in sync |
| Necessity.OwnerChangeHidesDeletionExactly | controllers/shoot_controller.go:215-262 | an update of the owner alone leaves the ConfigMap right; its later deletion is noticed exactly when the new owner is the shoot as well, and otherwise the shoot is settled without its ConfigMap |
| Necessity.FailingListLosesWakeUpExactly | controllers/shoot_controller.go:115-131 | a quota event reaches a waiting shoot exactly when the lists succeed; if they fail, the shoot still waits rightly exactly when more news is on its way or a quota refuses |
| Necessity.SpecChangeIsHarmlessExactly | controllers/shoot_controller.go:348-376 | a dropped update of a quota that refuses wakes no waiting shoot, and leaves it waiting rightly exactly when the quota still constrains ConfigMaps or another one refuses |
| Necessity.SpecChangeOpensGateExactly | controllers/shoot_controller.go:522-553 | if that quota alone was in the way, a reconcile was refused before and succeeds afterwards exactly when the constraint is gone, so what is missed is a ConfigMap that could be there |
| Overshoot.BoundedOvershoot | controllers/shoot_controller.go:402-409 | with at most L concurrent reconciles per namespace, a quota respected at the start is never exceeded by more than L - 1, over all interleavings, counting reconciles that skipped the check |
| Overshoot.ClaimedStep | controllers/shoot_controller.go:402-515 | ConfigMaps plus creations still possible without a check only grow by a passed check, and then within the bound |
| OvershootSharp.BoundIsReached | controllers/shoot_controller.go:402-515 | the bound is reached: any shoots that may run at the same time and lack their ConfigMaps can all pass the check for the last free place and be created |
| Quiescence.ReconcilesAreBounded | controllers/shoot_controller.go:500-515 | in any stretch of a run, however the workers interleave and although its own writes raise events, a shoot is reconciled at most once per event on its way at the start, once if queued, once if waiting for a retry, once if out of sync, twice for an outdated reconcile in flight or once for one that has failed; plus four times per change of its Shoot or ShootState since, twice per change others make to a ConfigMap of its namespace, and once per quota update of the namespace that passes the filter, quota created or deleted, failing API call and long timer; changes that leave the shoot without a renderable kubeconfig, a quota without status or a kubeconfig with a foreign owner are the only ones excluded |
| Quiescence.ToComeStep | controllers/shoot_controller.go:76-98 | each admission decreases that number, and no step whatsoever increases it by more than its share |
| Quiescence.SpentBoundMeansInSync | controllers/shoot_controller.go:76-98 | a settled shoot in sync is reconciled no more often than others disturb it, and a shoot that has been reconciled as often as the bound allows and is not in flight is settled and in sync |
| Quiescence.WorkIsBounded | controllers/shoot_controller.go:381-520 | in any stretch of a run, also with lost events and failures, the reconciles of a shoot take at most six steps per admission, besides those left to the one in flight at the start |
| Quiescence.WorkIsPaidFor | controllers/shoot_controller.go:381-520 | so the steps spent on a shoot are bounded by what was under way at the start and by how often others disturb it since |
| Quiescence.UnsettledIsEnabled | controllers/shoot_controller.go:76-92 | as long as a shoot is not settled, the controller can take a step |
| Quiescence.AtRestAllIsRight | controllers/shoot_controller.go:76-520 | when no step is left for the controller, every shoot has the right ConfigMap or waits for a quota that refuses it |
| LimiterRuns.CountersAreExact | controllers/shoot_controller.go:744-781 | in every reachable state a namespace has an entry exactly when reconciles are in flight for it, the entry is their number, and the entries add up to all reconciles in flight |
| LimiterRuns.NeverPanics | controllers/shoot_controller.go:770-773 | the release of a counter never misses its entry |
| LimiterRuns.NeverAboveGreatestLimit | controllers/shoot_controller.go:755-757 | under any sequence of configuration changes a namespace never has more reconciles than the greatest limit in force |
| LimiterRuns.LoweredLimitOnlyDrains | controllers/shoot_controller.go:736-762 | after the limit is lowered, the number of reconciles at or above it can only fall, and one at or below it stays there |
| LimiterRuns.FreeWorkersAreShared | controllers/shoot_controller.go:744-762 | under any sequence of configuration changes, as long as the number of busy namespaces times the greatest limit is below the number of workers, any queued shoot that is not in flight and whose namespace is below the limit can be admitted |
| LimiterRuns.NamespaceIsolation | controllers/shoot_controller.go:744-762 | with a validated configuration a namespace keeps at most its limit of workers busy, and a waiting shoot of an idle namespace can be admitted as long as the limits of the busy namespaces leave a worker |
| LimiterRuns.IdleControllerStartsExactlyWithPositiveLimit | internal/util/config.go:110-122 | validation accepts limits below one, and an idle controller can start a reconcile exactly when the limit is at least one |
| LimiterRuns.LimitBelowOneStarves | internal/util/config.go:110-122 | with such a limit no reconcile ever starts |
| Limiter.DecreaseUndoesIncrease | controllers/shoot_controller.go:79-89 | an admission and its release leave the counters as they were |
| Handling.StepsAddUp | controllers/shoot_controller.go:381-520 | the atomic steps of a reconcile that runs alone amount to `HandleRequest` |
| System.FailureIsAStepOrNothing | controllers/shoot_controller.go:499-515 | a failing API call ends the reconcile with the effect of the step it was to take, events included, or with none |
| Handling.HandleRequest | controllers/shoot_controller.go:381-520 | only the shoot's own ConfigMap is touched, only on success; success means that it exists and is in sync exactly when Shoot and ShootState exist; other labels and data entries are kept |
| Handling.HandleRequestGivesAccess | controllers/shoot_controller.go:439-520 | a request that succeeds where Shoot and ShootState exist leaves a ConfigMap owned by the shoot (name and uid), whose kubeconfig names `<namespace>--<shoot>-<address>` for every address in order, with `https://` and the host of its URL, the stored certificate, the reference to this namespace, shoot and garden for the plugin, cluster extensions exactly unless the version is a legacy one, and the first address as current |
| Handling.HandleRequestEndsExactly | controllers/shoot_controller.go:381-497 | which of the four outcomes a request has, in terms of the objects, the gate and whether a kubeconfig can be rendered |
| Handling.WriteKeepsTheRest | controllers/shoot_controller.go:499-515 | whatever has happened since the objects were read, the write keeps every other label and data entry of the ConfigMap it finds, or if it has disappeared of the copy that was read, and makes the shoot its owner |
| Handling.HandleRequestIdempotent | controllers/shoot_controller.go:381-520 | handling a request twice leaves the objects as after the first time, on every path and for every order of the quota list |
| Handling.HandleRequestRepeatsExactly | controllers/shoot_controller.go:381-520 | the second handling ends in the same way exactly when there is no shoot, or a ConfigMap that stays, or a ConfigMap was deleted for want of a ShootState and the gate is open, or there was none and the gate answers the second list as the first |
| Handling.HandleRequestRepeatsInEveryOrder | controllers/shoot_controller.go:399-425 | it ends in the same way for every order of the second list exactly when, with a Shoot, the ConfigMap was there and the ShootState is or no quota stands in the way, or it was not there and no quota refuses or none lacks its status |
| Handling.ConfigMapKeyInjective | controllers/shoot_controller.go:385-386 | two shoots never share a ConfigMap |
| Reconciler.ShootReconciler.HandleRequest | controllers/shoot_controller.go:381-520 | the imperative code, with its loops and early returns, computes `HandleRequest` |
| Reconciler.ShootReconciler.CollectEndpoints | controllers/shoot_controller.go:461-472 | one cluster per address in order, or none if some address has no valid URL |
| Reconciler.ShootReconciler.Reconcile | controllers/shoot_controller.go:76-92 | a reconcile is rejected exactly at the limit, changes nothing then, and always leaves the counters as it found them |
| Reconciler.ShootReconciler.IncreaseCounterForNamespace | controllers/shoot_controller.go:744-762 | admits exactly below the limit and then adds one |
| Reconciler.ShootReconciler.DecreaseCounterForNamespace | controllers/shoot_controller.go:764-781 | takes one away and removes the entry at zero |
| Rendering.ShootPredicate | controllers/shoot_controller.go:191-209 | a shoot update is handled exactly when the advertised addresses differ |
| Rendering.CaCertIsRead | controllers/shoot_controller.go:557-580 | the certificate is read from the first "ca" entry, under "certificate" if the entry is of that type and under "ca.crt" otherwise; raw data that cannot be parsed, a missing entry and a missing field are told apart |
| Rendering.RenderableExactly | controllers/shoot_controller.go:428-497 | a kubeconfig is rendered exactly when a nonempty certificate is stored and parses, the garden identity is set, there are addresses, each with a name and a URL with a host, namespace and name are not empty and the version can be read |
| Rendering.DroppedShootUpdateExactly | controllers/shoot_controller.go:164-212 | a dropped shoot update keeps the wanted kubeconfig exactly when the version class stays |
| Rendering.DroppedStateUpdateExactly | controllers/shoot_controller.go:265-315 | a dropped ShootState update keeps the wanted kubeconfig exactly when the old certificate entry was readable |
| Rendering.ShootStateFilterIsExact | controllers/shoot_controller.go:292-312 | between entries that can be read, a ShootState update is handled exactly when it can make a difference to some kubeconfig; an entry that was unreadable, or that is unreadable or gone afterwards, is never handled |
| Rendering.ConfigMapFilterIsExact | controllers/shoot_controller.go:215-262 | a ConfigMap update is handled exactly when it changes which kubeconfig the ConfigMap is in sync with |
| Quota.LessThan | internal/util/quota.go:12-24 | true exactly when every entry present in both lists is smaller in the first |
| Quota.ResourceQuotaPredicate | controllers/shoot_controller.go:348-376 | over all partial lists, an update is handled exactly when the reported limit has changed and has not fallen, or the reported usage has changed and there is room where there was none, comparing entries only where both are reported |
| Quota.UpdatePassesWhenReported | controllers/shoot_controller.go:348-376 | with all four entries reported, exactly when the limit rises or a full quota gets room |
| Quota.HasSufficientQuota | controllers/shoot_controller.go:522-553 | the gate opens exactly when every quota that constrains ConfigMaps reports both entries and has room for one more; otherwise the first without room decides: it refuses if that quota is full and fails if it is unreported |
| Quota.GateExactly | controllers/shoot_controller.go:530-552 | the same about the gate all other results speak of |
| Quota.GateDecidedByFirst | controllers/shoot_controller.go:530-552 | a closed gate gives the answer of the first quota in the way |
| Quota.GateIgnoresOrder | controllers/shoot_controller.go:530-552 | whether the gate opens does not depend on the order of the list |
| Quota.GateErrorDependsOnOrderExactly | controllers/shoot_controller.go:535-549 | whether it refuses or reports an error is the same in every order of the list, and for every list of the same quotas, exactly when no quota refuses or none lacks its status |
| Quota.RefusalMeansExhausted | controllers/shoot_controller.go:543-549 | a refusal is always due to a quota that the filter regards as exhausted |
| QuotaWatch.MapQuotaEvent | controllers/shoot_controller.go:133-153 | the nested loops return exactly the listed shoots without a listed ConfigMap, in order |
| QuotaWatch.RequestsExactly | controllers/shoot_controller.go:133-153 | these and no others, and none twice when the shoots are distinct |
| QuotaWatch.AwakenedExactly | controllers/shoot_controller.go:111-131 | the shoots a quota event of the transition system wakes up are those of the namespace without a ConfigMap of their name and the kubeconfig role |
| QuotaWatch.RequestsAreAwakened | controllers/shoot_controller.go:115-153 | on the lists of a namespace, whatever their order, exactly the shoots without a labelled kubeconfig ConfigMap |
| Kubeconfig.Validate | controllers/shoot_controller.go:604-632 | succeeds exactly when every required field is set, and otherwise names the one thing missing first, in the order clusters, namespace, shoot, identity, with the index of the first incomplete cluster |
| Kubeconfig.GenerateConfig | controllers/shoot_controller.go:639-726 | the loop builds the kubeconfig `Generate` describes |
| Kubeconfig.OnlyUser | controllers/shoot_controller.go:640-670 | the only user calls `kubectl gardenlogin get-client-certificate`, asks kubectl to provide the cluster information, and in the legacy layout passes name, namespace and garden identity as flags |
| Kubeconfig.EntryPerAddress | controllers/shoot_controller.go:640-723 | one cluster and one context per address, in order, with their names, host, certificate and extension, and the first as current |
| Kubeconfig.ResolvesToAddress | controllers/shoot_controller.go:705-723 | the context of an address leads to that address' own host and certificate and to the only user |
| Kubeconfig.ResolvesOnlyAddresses | controllers/shoot_controller.go:672-723 | exactly the addresses' contexts resolve, and the current context resolves to the first address |
| Kubeconfig.LayoutsAgree | controllers/shoot_controller.go:643-703 | in either layout and every context, the plugin learns the request's namespace, shoot and garden identity, for all strings: from the cluster extension, which kubectl hands over only if asked to, or from its flags |
| Kubeconfig.LayoutsDifferOnlyInReference | controllers/shoot_controller.go:643-703 | the layouts differ in user arguments and cluster extensions, and in nothing else |
| Kubeconfig.AuthNameInjective | controllers/shoot_controller.go:640-640 | user names of shoots in namespaces without double or trailing hyphens determine namespace and shoot |
| Kubeconfig.EntryNameParsesBack | controllers/shoot_controller.go:640-706 | with addresses without hyphens, entry names determine namespace, shoot and address |
| Kubeconfig.AuthNameParsesBackExactly | controllers/shoot_controller.go:640-640 | a user name stands for no other shoot in a namespace without double or trailing hyphens exactly when its own namespace is such a one |
| Kubeconfig.EntryNameParsesBackExactly | controllers/shoot_controller.go:640-706 | an entry name stands for no other namespace, shoot and address of that kind exactly when its own namespace is such a one and its address has no hyphen |
| Configuration.ReadControllerManagerConfiguration | internal/util/config.go:65-93 | a configuration is returned exactly when the file decodes and the merged values are accepted, with every field from the file or else its default |
| Configuration.ControllerManagerConfiguration.ReadFile | internal/util/config.go:95-108 | the file overwrites exactly the fields it sets, whatever the configuration held before |
| Configuration.ControllerManagerConfiguration.Validate | internal/util/config.go:110-122 | accepts exactly at least one worker and a limit per namespace of at most the number of workers |

## Left out

- Configuration.ControllerManagerConfiguration.ReadFile: promises nothing about the values after a failed decoding, which may have set some fields by then; the only caller discards them.
- Manager setup, leader election, health checks, logging, certificates and the landscaper component: plumbing around the controller.
- The validating webhook for ConfigMaps: one straight-line decision and a remote access review.
- API server, informer caches and work queue internals: only their contract appears, as rules of the transition system. The caches are taken to be up to date with the controller's own writes.
- A create from a copy read earlier may be refused by an API server because of its resource version; the model lets it succeed or fail.
- PEM, X.509, URL, version and YAML parsing and JSON encoding: deterministic functions, parameters of the model. Encoding and the version constraint cannot fail.
- Owner references other than the controller reference to a Shoot.
- Time: a timer is only pending or not; the durations of retries and delays are not modelled.
- Nil checks and failing type assertions in the event filters.
- Panics inside a reconcile, after which the counter would not be released: every reconcile returns.
- Quantities are integers, as they count objects; Go's integer width does not matter for counters bounded by the number of workers.
- The mutexes: each method of the class runs alone, as the locks enforce, and the transition system takes each as one step.
- Two events for the same shoot that an update of an owner reference raises are separate events of the model, handled one after the other.
