# Exoscale cloud controller: a verified model

The cloud controller keeps an Exoscale network load balancer (NLB) in step with a Kubernetes Service,
describes nodes to Kubernetes, refreshes its API credentials while calls are in flight, and approves
the certificate requests of new nodes. This project models those parts in Dafny and proves what
they promise over whole runs and whole histories of runs. `dafny verify dfyconfig.toml` checks it.

## How the load-balancer model works

* `LoadBalancerApi` is the state behind the API: NLBs by ID, each with services unique by
  (port, protocol), IDs that are never handed out twice, and the six mutating calls. An update of a
  service has no pool field, so the stored pool stays.
* `CloudApi.Cloud.Do` is one mutating call with an adversarial fate: it succeeds, fails without effect,
  or fails although it took effect (the start of an operation and the wait for it can fail apart).
  `Patching.ApiServer` is a second store, the API server's copy of a Service's annotations, with the
  same three fates.
* `Controller`, `Withdrawal` and `LoadBalancers` hold the reconciling, deleting and ensuring methods in the
  form of the source: loops over what was fetched, effects one call at a time, early returns.
* Faults are counted where they strike (`Cloud`, `ApiServer`, `Directory` and `ApprovalStore` each have a
  count). A run stops at its first fault and reports it, so that the contracts can say what a run does that
  meets none.
* `UpdatePlan.Plan` gives the calls of one reconciliation as a function of what was fetched. Each method's
  contract says that the calls it issued are a prefix of its plan, that all of them took effect except
  possibly the last of a failed run, and that success means the whole plan (`LoadBalancerApi.Ran`,
  `Controller.UpdateRan`, `Withdrawal.WithdrawRan`, `LoadBalancers.EnsureRan`). The contracts also say
  which errors can occur and when.
* `UpdateTheorems`, `Histories`, `Deletions` and `Conservation` prove the promises about these relations: over every
  prefix, over any number of interrupted runs, over Services that share an NLB, and over runs mixed
  with outside interference. The order in which the API lists services is arbitrary throughout.

Hypotheses, where a theorem needs them, are preconditions: the ports of one Service differ by
(port, protocol) without regard to case (`UniquePorts`), Services on a shared NLB have disjoint ports
(`DisjointPorts`), the controller is the only writer of its annotations (`Conservation`), and the
configuration hypotheses of `Instances.Provider.WellConfigured`.

## Where the code does less than one might expect

* **The NLB description never converges.** The top-level update sends the description the NLB already
  has (`exoscale/loadbalancer.go:347`). `RetriesSafe` proves that no number of runs changes it, and
  `Idempotence` that every later run issues that useless update exactly when the NLB is not external
  and the descriptions differ.
* **A kept service with no pool is updated for ever** when the Service asks for the empty pool ID: the
  pool comparison calls them equal, the field comparison does not, and an update cannot set the pool.
  `Idempotence` fails exactly for these services (`PoolBlind`, a check on what was fetched and asked
  for); `BlindForEver` proves that no number of runs mends one, and `BlindWitness` that there are such
  NLBs.
* **A run cut short between creating and annotating orphans an NLB**, and no other run does
  (`OrphanOfRun`). Such a run is possible exactly when the Service builds, an instance pool can be chosen
  for it, and its ID annotation names no live NLB, because there was none yet or because it has vanished
  (`OrphanExactly`). The orphans stay, one for each such run (`NLBConservation`).
* **A cluster name without a nodepool name skips pool resolution**, even the inference from nodes
  (contract of `ResolvePool`).
* **An empty service-name annotation makes a successful add look like a failure**: the look-up after the
  add cannot tell the empty name from no service. A run that has such a service to add never succeeds,
  and no other run ends in that error (contracts of `UpdateLoadBalancer` and `EnsureLoadBalancer`). There
  is one to add exactly when the Service has a single port and an empty name annotation, and the
  service at its port is not kept with its pool (`UnnamedExactly`, `UnnamedWitness`).
* **An update cannot clear a field** if the API keeps the fields that a request leaves out, as the client
  library leaves out empty ones. Under that reading a run converges exactly when no service kept with
  its pool has a field to be cleared (`ConvergesExactly`), and the next one is quiet exactly when,
  besides, none is pool-blind (`IdempotentExactly`).
* **A pool with an empty ID can make the scan of nodes depend on their order**: exactly when nodes of one
  pool with an ID stand beside nodes of a pool without one (`OrderMattersExactly`). With several pools
  that have IDs, or with none, the order never matters.
* **In CSR approval a later instance of the same name can overrule an earlier match**
  (`LaterNamesakeOverrules`). The verdict is "some instance matches", for all lists of addresses, exactly
  when the last instance of the name has all the addresses of its namesakes (`DecisionExactly`).
* **Overrides that share an ID can break the metadata fixpoint** (`SharedIdBreaksFixpoint`). A node with
  an external override keeps its answer exactly when the override found under that ID comes to the same
  type, addresses and region (`ExternalFixpointExactly`); a node backed by an instance, exactly when it
  had a provider ID already or no override that says otherwise bears the instance's ID
  (`InstanceFixpointExactly`).
* **A node that carries another provider ID than its own makes the two node interfaces differ**
  (`ForeignProviderIdDisagrees`), and only such a node does (`AgreeExactly`).
* The documentation says that an external NLB's name takes precedence over its ID
  (`docs/service-loadbalancer.md:321`). The code looks at the name only when there is no ID
  (`exoscale/loadbalancer.go:114`); the model follows the code (contract of `EnsureLoadBalancer`).

## Model

| member | source | states |
|---|---|---|
| `UpdateTheorems.Convergence` | exoscale/loadbalancer.go:326-579 | A complete reconciliation of any well-formed NLB leaves every desired service exactly as asked; other keys are vacant, or untouched when the NLB is external, and the NLB has the name asked for |
| `UpdateTheorems.ConvergedViewsAgree` | exoscale/loadbalancer.go:371-576 | Convergence determines the service set up to IDs and status: two converged NLBs offer the same services |
| `UpdateTheorems.PrefixSafe` | exoscale/loadbalancer.go:341-576 | After any prefix of a run keys and IDs are unique, description and address are the old ones, foreign services of an external NLB are intact, and an external NLB sees service calls only |
| `UpdateTheorems.RunSafe` | exoscale/loadbalancer.go:341-576 | An interrupted run changes no other NLB and keeps its own; a complete run leaves exactly the outcome of its plan |
| `UpdateTheorems.NextCallAdmitted` | exoscale/loadbalancer.go:369-576 | At every point of a run the API admits the next call; in particular no add meets an occupied key |
| `UpdateTheorems.PlanSaysNothingTwice` | exoscale/loadbalancer.go:369-576 | A run issues no call twice |
| `UpdateTheorems.MinimalPlan` | exoscale/loadbalancer.go:342-576 | Deletes are exactly the obsolete services (never on an external NLB) and the repooled ones, adds the missing and repooled ones, updates the kept ones of equal pool that differ elsewhere; the NLB is updated exactly when its own name or description is off |
| `UpdateTheorems.SecondServicesPlan` | exoscale/loadbalancer.go:475-576 | The second loop has nothing left to do on a settled NLB if and only if no kept service had an unmendable pool field |
| `UpdateTheorems.Idempotence` | exoscale/loadbalancer.go:342-354 | After a successful run the next one issues no service call if and only if no kept service lacked a pool while the empty one was asked for, never adds or deletes, and updates the NLB if and only if it is not external and its description differs |
| `UpdateTheorems.BlindStays` | exoscale/loadbalancer.go:475-574 | No part of a run mends a service that was kept without a pool while the empty pool ID is asked for |
| `UpdateTheorems.BlindWitness` | exoscale/loadbalancer.go:479-482 | There is such an NLB for every service asked for with the empty pool ID |
| `OmittedFields.MergedExactly` | vendor/github.com/exoscale/egoscale/v3/operations.go:14456-14471 | An update whose empty fields are not sent leaves what was asked for, the pool aside, if and only if no field has to be cleared |
| `OmittedFields.ConvergesExactly` | exoscale/loadbalancer.go:552-574 | If the API keeps unsent fields, a complete run converges if and only if no service kept with its pool has a field to be cleared |
| `OmittedFields.IdempotentExactly` | exoscale/loadbalancer.go:552-574 | If the API keeps unsent fields, the second loop of the next run has nothing to do if and only if, besides, no kept service is pool-blind |
| `UpdatePlan.PrunePhase` | exoscale/loadbalancer.go:371-415 | The deletes of the first loop are admitted one by one and remove exactly the listed services at keys not asked for |
| `UpdatePlan.ServiceStepPhase` | exoscale/loadbalancer.go:418-574 | One round of the second loop settles its own key, keeps IDs unique, and leaves the find at every other key alone |
| `UpdatePlan.ServicesPhase` | exoscale/loadbalancer.go:418-576 | The second loop settles every desired key and no other, and the API admits all of its calls |
| `UpdatePlan.WholePlan` | exoscale/loadbalancer.go:341-576 | The whole plan is admitted and its outcome is exact: name, description, address, settled services, and the fate of every key not asked for |
| `LoadBalancerApi.ExecOnOne` | exoscale/loadbalancer.go:617-757 | Calls on one NLB leave all the others as they were |
| `LoadBalancerApi.ValidAlong` | exoscale/loadbalancer.go:617-757 | Any sequence of calls, admitted or not, keeps service keys and IDs unique and unused NLB IDs unused |
| `CloudApi.Cloud.Do` | exoscale/loadbalancer.go:617-757 | A mutating wrapper: success means admitted and in effect; failure means either fate, and a rejection means that the state forbade the call; each fault is counted, so that none can be invented |
| `CloudApi.Cloud.GetLoadBalancer` | exoscale/loadbalancer.go:581-599 | A fetch describes the NLB and every service once, in any order; not found means that it does not exist; anything else is a counted fault |
| `CloudApi.Cloud.FindLoadBalancer` | exoscale/loadbalancer.go:114-126 | A search succeeds with the one NLB whose name or ID is the given one, and fails, faults aside, only when there is none or several |
| `Controller.PruneServices` | exoscale/loadbalancer.go:371-415 | The first loop issues a prefix of the prune plan and returns exactly the services to keep |
| `Controller.PruneNext` | exoscale/loadbalancer.go:372-414 | One round: a desired service is kept, another is deleted unless the NLB is external |
| `Controller.IsDesired` | exoscale/loadbalancer.go:377-389 | The inner search finds a key if and only if some desired service has it |
| `Controller.AddAndVerify` | exoscale/loadbalancer.go:426-473 | An add that reads back: success means that the service has a name, and "not visible" that it has none |
| `Controller.CheckAdded` | exoscale/loadbalancer.go:448-465 | The search of the listing by name fails for an added service if and only if its name is empty |
| `Controller.Recreate` | exoscale/loadbalancer.go:491-549 | Delete, then add: a prefix of the two calls, with or without the effect of the last |
| `Controller.ReconcileService` | exoscale/loadbalancer.go:418-574 | One round: add, delete and add, update, or nothing, cut short at any call with or without effect; it succeeds only if it adds no service without a name |
| `Controller.ReconcileServices` | exoscale/loadbalancer.go:417-576 | The second loop issues a prefix of its plan, all of it when it succeeds, and then no added service lacks a name |
| `Controller.UpdateTopLevel` | exoscale/loadbalancer.go:341-354 | The top-level update, which re-sends the current description |
| `Controller.Reconcile` | exoscale/loadbalancer.go:336-579 | The three stages compose to a prefix of the plan of the fetched NLB, all of it on success; a run with an unnamed service to add does not succeed, and only such a run ends with "not visible" |
| `Controller.UpdateLoadBalancer` | exoscale/loadbalancer.go:326-579 | A run follows the plan of the spec built from the annotations; with distinct ports the API never refuses a call for the state it meets; "not visible" means an unnamed service to add, which excludes success; a spec that does not build fails without one mutating call; every run stops at its first fault, and one that meets none succeeds when the spec builds, the NLB is live, the keys are unique and no unnamed service is to be added |
| `Controller.UnnamedExactly` | exoscale/loadbalancer.go:844-889 | A service without a name is to be added if and only if the Service has one port and an empty name annotation, and the service at that port is missing or of another pool |
| `Controller.UnnamedWitness` | exoscale/loadbalancer.go:886-889 | There is such a Service for every UID and TCP port |
| `Controller.KeptSuffice` | exoscale/loadbalancer.go:368-425 | The second loop decides from the services the first one kept exactly as it would from all that were fetched |
| `Controller.PlanAdmissible` | exoscale/loadbalancer.go:341-576 | From every valid state of the whole API the plan is admissible call by call |
| `Controller.UpdateSafe` | exoscale/loadbalancer.go:326-579 | However it ends, a reconciliation keeps the API state valid, touches one NLB, and touches it only as `PrefixSafe` allows |
| `Histories.UpdateConverges` | exoscale/loadbalancer.go:326-579 | Every successful run of the method converges, from any valid state |
| `Histories.EnsureConverges` | exoscale/loadbalancer.go:219-262 | Every successful Ensure run converges on the NLB it found or created, and no other NLB appears or vanishes |
| `Histories.RetriesSafe` | exoscale/loadbalancer.go:326-579 | Over any number of runs, interrupted anywhere, the description and address stay and so do the foreign services of an external NLB |
| `Histories.RetryConvergence` | exoscale/loadbalancer.go:326-579 | After any runs cut short anywhere, with or without effect, one successful run leaves the services that a single faultless run from the initial state would have left |
| `Histories.RetriesNeverStuck` | exoscale/loadbalancer.go:326-579 | Wherever earlier runs stopped, the API admits each call of the next run |
| `Histories.BlindForEver` | exoscale/loadbalancer.go:477-574 | After any number of runs, interrupted anywhere, a pool-blind service still is one, and the next run sends the same update again |
| `Histories.EnsuredPools` | exoscale/loadbalancer.go:135-217 | After a successful Ensure run the service of every port has the pool that the annotations name |
| `Histories.EnsureDeleteRoundTrip` | exoscale/loadbalancer.go:99-323 | Ensure and then delete removes an NLB of the controller's own, and leaves an external one with its initial services less those at the Service's ports |
| `Histories.WithdrawExact` | exoscale/loadbalancer.go:280-323 | A successful delete run leaves exactly the unowned services, or no NLB when there are none and it is not external |
| `Deletions.DeleteRetry` | exoscale/loadbalancer.go:280-323 | After any delete runs cut short anywhere, one success leaves the whole API as a single faultless run from the initial state would have |
| `Deletions.WithdrawalsProgress` | exoscale/loadbalancer.go:295-320 | Interrupted delete runs take owned services away and nothing else, or the NLB once everything on it was owned |
| `Histories.NonInterference` | exoscale/loadbalancer.go:391-400 | Over any history of runs by several Services on one external NLB, failures included, a key changes only if a Service with that port ran; no NLB is created, updated or deleted |
| `Histories.ExternalEnsureIsShared` | exoscale/loadbalancer.go:226-257 | An Ensure run on an external NLB is a reconciliation and so a step of such a history |
| `Histories.SharedStepContained` | exoscale/loadbalancer.go:280-579 | One run, however it ends, changes no key outside its own Service's ports; a successful one achieves what it asked for |
| `Histories.LastWordStands` | exoscale/loadbalancer.go:391-400 | With disjoint ports, what a Service's last successful run achieved holds at the end of the history, whatever the others did |
| `Histories.OrderIndependence` | exoscale/loadbalancer.go:280-579 | Two histories of reconciliations and deletions with the same start, participants and last words end with the same services, in whatever order the runs came and whatever failed on the way |
| `Histories.OddKeysOfReconciliations` | exoscale/loadbalancer.go:297-298 | Only delete runs, which compare protocols without case, can touch a key that is not spelled in lower case |
| `LoadBalancers.LoadBalancer.ResolveExternal` | exoscale/loadbalancer.go:105-133 | An external NLB without ID and name is an error; one with a name only is the one NLB that bears it, and its ID is recorded; otherwise nothing is touched |
| `LoadBalancers.LoadBalancer.ResolvePool` | exoscale/loadbalancer.go:135-217 | Which pool is recorded in each case, when resolution is skipped, and that an annotated pool stays on later runs |
| `LoadBalancers.LoadBalancer.FetchOrCreate` | exoscale/loadbalancer.go:224-255 | Creates only when no live NLB is named and the Service is not external; success means fetched, or created and annotated; each failure is a counted fault, a failed patch, or an external NLB that is not there |
| `LoadBalancers.LoadBalancer.ResolveAnnotations` | exoscale/loadbalancer.go:105-217 | Writes to the two own annotations only, in both copies, and keeps agreeing copies in agreement |
| `LoadBalancers.LoadBalancer.EnsureResolved` | exoscale/loadbalancer.go:224-261 | Creation, annotation and reconciliation compose to one interrupted or complete Ensure run |
| `LoadBalancers.LoadBalancer.EnsureLoadBalancer` | exoscale/loadbalancer.go:99-262 | A whole Ensure run: the calls it may leave behind, and none before a pool is chosen; no annotation changed but the ID and the pool; on success the pool is that of the named nodepool, the annotated one or the scanned one, an external NLB given by name is the only one of that name, and the address is that of the live NLB the ID annotation then names; a run with an unnamed service to add does not succeed and only such a run ends with "not visible"; a spec that does not build fails without one mutating call, whatever was annotated before; every failure has its reason, and a run that meets no fault succeeds if and only if no unnamed service is to be added, provided that the spec builds, the ports are distinct, a pool can be chosen and an external NLB can be found; this includes re-creation when the annotated NLB has vanished |
| `LoadBalancers.FinishedIfEnsurable` | exoscale/loadbalancer.go:219-261 | Once the annotations are resolved, nothing but a fault or a service without a name stands in the way |
| `LoadBalancers.ResolvedIfEnsurable` | exoscale/loadbalancer.go:105-217 | Nothing but a fault stands in the way of resolving them when a pool can be chosen and an external NLB can be found |
| `LoadBalancers.BegunServices` | exoscale/loadbalancer.go:224-257 | The reconciliation after a fetch or a creation meets the services of the NLB that was named, or none |
| `LoadBalancers.LoadBalancer.UpdateFetched` | exoscale/loadbalancer.go:257-261 | Reconciling what was fetched or created completes the run and returns an address that is still right |
| `LoadBalancers.EnsureComposed` | exoscale/loadbalancer.go:224-261 | Reconciling after a fetch or a creation completes the Ensure run on the same NLB and address |
| `LoadBalancers.AddressKept` | exoscale/loadbalancer.go:257-261 | Reconciling neither creates nor loses an NLB and keeps its address, so the address read before it is the right one after |
| `Conservation.NLBConservation` | exoscale/loadbalancer.go:224-261 | Over any history of runs and outside interference, with manifests that may change, besides the annotated NLB no more NLBs of the Service are live than runs were cut between creating and annotating, and no more were created than one plus these runs plus the losses; without such runs at most one is live, the annotated one |
| `Conservation.NothingYet` | exoscale/loadbalancer.go:224-261 | The invariant behind it holds before the first run, whatever the ID annotation says |
| `Conservation.NextKeeps` | exoscale/loadbalancer.go:99-323 | Ensure, update and delete runs and outside interference all keep that invariant |
| `Conservation.OrphanExactly` | exoscale/loadbalancer.go:233-249 | Some run can leave a new live NLB that no annotation names if and only if the Service builds, a pool can be chosen for it, and its ID annotation names no live NLB |
| `Conservation.OrphanOfRun` | exoscale/loadbalancer.go:233-249 | A given run makes an orphan if and only if it failed with the creation as its only call, the creation took effect, and the annotation on the API server stayed; it never removes one |
| `Conservation.UncutRecorded` | exoscale/loadbalancer.go:233-249 | A run that gets past that point has recorded the ID of what it created |
| `Conservation.OrphanHappens` | exoscale/loadbalancer.go:233-249 | Such a run exists for every Service that builds and gets a pool, whether it has no NLB yet or its NLB has vanished |
| `Conservation.EnsureEndsRight` | exoscale/loadbalancer.go:224-261 | After a successful Ensure run the NLB named by the API server's annotation is live and has exactly the services asked for, one per port |
| `Conservation.EnsureKeys` | exoscale/loadbalancer.go:224-255 | An Ensure run creates at most one NLB, and only when none is named live and the Service is not external |
| `Conservation.WithdrawMayGo` | exoscale/loadbalancer.go:295-322 | A delete run takes away at most the annotated NLB |
| `Conservation.WithdrawIsOutside` | exoscale/loadbalancer.go:295-322 | A delete run is one of the steps of a history, and costs the Service no NLB but the annotated one |
| `Withdrawal.DeleteMatching` | exoscale/loadbalancer.go:297-307 | The inner loop deletes once per matching port and counts down once per delete |
| `Withdrawal.DeleteAllMatching` | exoscale/loadbalancer.go:295-308 | The nested loops issue a prefix of the deletes; on success the counter is the number fetched less the number deleted |
| `Withdrawal.EnsureLoadBalancerDeleted` | exoscale/loadbalancer.go:280-323 | A delete run follows its plan as far as the faults let it; a run that meets no fault succeeds when the ports are distinct, and always when the annotated NLB does not exist |
| `Withdrawal.DeletesForExact` | exoscale/loadbalancer.go:296-307 | With ports distinct up to case each fetched service is deleted exactly once if it matches and never otherwise |
| `Withdrawal.DeletionAccounting` | exoscale/loadbalancer.go:295-320 | The deletes leave exactly the unmatched services, the counter ends at their number, and the NLB is deleted if and only if it is not external and every fetched service matched |
| `ServiceSpec.BuildLoadBalancerFromAnnotations` | exoscale/loadbalancer.go:772-895 | The imperative build, with its early errors, agrees with the specification of a build |
| `ServiceSpec.BuildFaithful` | exoscale/loadbalancer.go:772-895 | A build yields one desired service per port, in order, under that port's lower-case key, and fails if and only if a protocol is unsupported or a consulted annotation does not parse |
| `ServiceSpec.BuildMeans` | exoscale/loadbalancer.go:808-892 | Each port gets its service field by field: port, node port as target, lower-case protocol, strategy, the health check in all its fields with its three cases of port modulo 65536, pool, and name and description for one port and for several |
| `ServiceSpec.BuildTopMeans` | exoscale/loadbalancer.go:772-778 | The NLB is named and described as annotated or by default, and external exactly when that annotation is there and reads "true" in lower case |
| `ServiceSpec.AnnotationNames` | exoscale/loadbalancer.go:20-36 | Each annotation by its name |
| `Prelude.LowerMeans` | exoscale/loadbalancer.go:58 | Lower case replaces capitals and nothing else |
| `ServiceSpec.BuildIgnoresOwnWrites` | exoscale/loadbalancer.go:772-895 | The annotations the controller writes cannot change whether a Service builds, and its ID not what is built |
| `ServiceSpec.BuiltNamesDistinct` | exoscale/loadbalancer.go:844-854 | The default names of two ports differ, within one Service and across Services |
| `Naming.ParseDefaultName` | exoscale/loadbalancer.go:844-854 | A default name parses back to its UID, port and protocol, for every UID |
| `Naming.DefaultNamesDistinct` | exoscale/loadbalancer.go:844-854 | Default names never collide |
| `Patching.PatchedDiff` | exoscale/patcher.go:33-61 | Applying the difference to the snapshot gives the modified annotations, to another copy only the differing keys, and the difference is empty if and only if nothing changed |
| `Patching.ServicePatcher.constructor` | exoscale/patcher.go:22-29 | A patcher keeps a snapshot of the annotations and an alias of the Service |
| `Patching.ServicePatcher.Submit` | exoscale/patcher.go:33-61 | A patch that is confirmed makes a server copy equal to the snapshot equal to the modified one |
| `Patching.PatchAnnotation` | exoscale/loadbalancer.go:601-615 | One key is set on both copies; the local one keeps it even on failure; copies that agreed before a success agree after it; a failure is a counted one |
| `PoolInference.ScanDecides` | exoscale/loadbalancer.go:185-209 | The scan returns pool P if and only if P is the one pool with an ID that manages a node and no node of a pool without an ID comes after one of P |
| `PoolInference.ScanInvariant` | exoscale/loadbalancer.go:185-209 | Order, repetition and standalone nodes do not change the result, unless nodes of one pool with an ID stand beside nodes of a pool without one |
| `PoolInference.OrderMattersExactly` | exoscale/loadbalancer.go:185-209 | The result is the same for every order of the nodes if and only if that is not the case |
| `PoolInference.EmptyPoolIdOrderMatters` | exoscale/loadbalancer.go:197-204 | Two nodes for which the order decides between a pool and an error |
| `PoolInference.Directory.InferPool` | exoscale/loadbalancer.go:185-209 | The loop over nodes computes the scan, fails when an instance is unknown, and never returns an empty pool; faults are counted |
| `PoolInference.Directory.NodepoolPool` | exoscale/loadbalancer.go:141-163 | The pool belongs to the first nodepool of that name, without case, that has one, in the one cluster of that name or ID; the other failures than faults mean that there is no such pool with an ID |
| `PoolInference.Directory.FindCluster` | exoscale/loadbalancer.go:141-150 | A search succeeds with the one cluster of that name or ID, and fails, faults aside, only when there is none or several |
| `RefreshableClient.StepKeepsInvariant` | exoscale/client.go:174-218 | Every step of every thread keeps the lock accounted for, operations on the current client, and the pair of fields from one refresh except half-way through a write |
| `RefreshableClient.RefreshProtocol` | exoscale/client.go:117-126 | In every interleaving the wait of a mutating call runs on the client that started it, a holder of the read lock sees client and credentials of one refresh, and readers and writers exclude each other |
| `RefreshableClient.OnlyWritersReplace` | exoscale/client.go:186-218 | A failed refresh changes neither field; only the holder of the write lock replaces them, and by the pair it loaded |
| `RefreshableClient.LoadIsNew` | exoscale/client.go:185-213 | A refresh builds a client that was never installed and that no thread knows |
| `RefreshableClient.SwapInstallsNew` | exoscale/client.go:215-216 | Replacing the client always changes it, to one that was never installed before |
| `RefreshableClient.RefreshTakesEffect` | exoscale/client.go:174-218 | In every interleaving, when a refresh releases the lock, client and credentials are those it loaded itself |
| `RefreshableClient.CallsRunOnCurrent` | exoscale/loadbalancer.go:624-632 | A call is issued, and waits, on the client installed at that moment |
| `RefreshableClient.WriterIsServed` | exoscale/client.go:215-218 | While a refresh waits for the lock no call joins, so that those ahead of it only grow fewer |
| `RefreshableClient.NeverStuck` | exoscale/loadbalancer.go:617-757 | In every interleaving of calls that take the read lock once, while some thread is busy some busy thread can step |
| `RefreshableClient.AskingTwiceDeadlocks` | exoscale/client.go:117-126 | A call that took the read lock again for its wait while a refresh is queued would stop both for ever: in every continuation neither can take any step |
| `RefreshableClient.DeadlockReachable` | exoscale/client.go:215-218 | Such a deadlock could be reached from every initial state, by one call and one refresh |
| `RefreshableClient.Client.Step` | exoscale/client.go:174-225 | The object's fields after one atomic step are those of the protocol, and an impossible step changes nothing |
| `RefreshableClient.Client.Run` | exoscale/client.go:117-218 | Every move of a schedule that is possible in its turn is taken and no other, so that the object goes through an interleaving of the protocol and its theorems hold of it |
| `RefreshableClient.PossibleIsFeasible` | exoscale/client.go:117-218 | An interleaving of the protocol is run as it stands |
| `Overrides.GetInstanceOverride` | exoscale/instances_config.go:38-67 | The two passes by name compute the look-up: exact names first, then patterns, invalid patterns skipped |
| `Overrides.ByNameExactly` | exoscale/instances_config.go:38-67 | The first override of exactly that name wins; only without one the first whose pattern matches, wherever it stands; nothing is found only if nothing qualifies |
| `Overrides.GetInstanceOverrideByProviderId` | exoscale/instances_config.go:69-92 | The two passes by ID compute the look-up: explicit IDs first, then default ones |
| `Overrides.ByProviderIdExactly` | exoscale/instances_config.go:33-92 | The first override with exactly that external ID wins; only without one the first without an external ID whose name gives the ID |
| `Overrides.ByProviderIdMeans` | exoscale/instances_config.go:69-92 | What is found has the ID; nothing is found only if nothing has it |
| `Overrides.OwnIdFound` | exoscale/instances_config.go:33-92 | Looking up the provider ID built for an override finds that override |
| `Instances.CopyAddresses` | exoscale/instances.go:40-48 | The buffer filled by index holds the configured addresses |
| `Instances.AppendAddresses` | exoscale/instances_v2.go:181-230 | The appending loop with its flag computes the address list both interfaces share; it is one host name, as external addresses those that face outward, and as internal ones the provided IP with a private network, or else the outward ones |
| `Instances.AddressesExactly` | exoscale/instances_v2.go:181-230 | That list has exactly these addresses |
| `Instances.AlwaysInternal` | exoscale/instances_v2.go:203-226 | An instance with an outward address always has an internal one |
| `Instances.NodeAddresses` | exoscale/instances.go:36-65 | Addresses by name, with their errors |
| `Instances.AnswersByName` | exoscale/instances.go:36-213 | The four answers by name: an external override gives them all, another its type and addresses, and the rest is what the system UUID leads to, unless the API is not to be asked or does not know the node |
| `Instances.NodeAddressesByProviderId` | exoscale/instances.go:72-154 | Addresses by provider ID, the node being read only when there is a private network; without configured addresses they are exactly those of the instance behind the ID |
| `Instances.AnswersByProviderId` | exoscale/instances.go:216-243 | Type and region by provider ID: exactly when and what they answer |
| `Instances.InstanceMetadata` | exoscale/instances_v2.go:82-152 | The record filled field by field describes the node by its external override, or by the instance behind it as far as no override says more |
| `Instances.MetadataMeans` | exoscale/instances_v2.go:82-152 | That is what the metadata are, in every field |
| `Instances.MetadataFails` | exoscale/instances_v2.go:119-145 | The call fails if and only if no external override applies and the API is not to be asked, or does not answer for the instance or for a type that is needed |
| `Instances.OverrideOfNode` | exoscale/instances_v2.go:154-164 | The override is looked up by provider ID first, then by name |
| `Instances.MetadataFixpoint` | exoscale/instances_v2.go:82-176 | Writing the returned provider ID into the node leaves a second answer unchanged, for external, other and absent overrides |
| `Instances.SharedIdBreaksFixpoint` | exoscale/instances_config.go:73-79 | Two overrides with one external ID, and a node whose second answer differs |
| `Instances.ExternalFixpointExactly` | exoscale/instances_v2.go:85-117 | For a node with an external override the second answer equals the first if and only if the override found under its ID is external with the same type, addresses and region, or together with the instance that bears the ID comes to the same |
| `Instances.InstanceFixpointExactly` | exoscale/instances_v2.go:119-176 | For a node backed by an instance it does if and only if the node had a provider ID, or no override bears the instance ID, or the one that does says the same |
| `Instances.InterfacesAgree` | exoscale/instances_v2.go:82-230 | For a node with its own provider ID or none, type, addresses, provider ID and region from the metadata call equal what the older calls answer, which all succeed |
| `Instances.AgreeExactly` | exoscale/instances_v2.go:82-230 | The two interfaces agree on a stored node if and only if its provider ID is unset, its own, or unknown while an external override by name decides |
| `Instances.ForeignProviderIdDisagrees` | exoscale/instances_v2.go:156-164 | Two overrides and a node with the ID of the other one, on which the interfaces differ |
| `CsrApproval.DecisionIsLastMatch` | exoscale/sks_agent_runner_node_csr_validation.go:116-153 | The verdict is that of the last instance of the name, and no without one |
| `CsrApproval.DecisionWithUniqueNames` | exoscale/sks_agent_runner_node_csr_validation.go:116-153 | With distinct instance names the verdict is that some instance matches |
| `CsrApproval.DecisionExactly` | exoscale/sks_agent_runner_node_csr_validation.go:116-153 | The verdict is that some instance matches, for all lists of addresses, if and only if the last instance of the name has all the addresses of its namesakes |
| `CsrApproval.LaterNamesakeOverrules` | exoscale/sks_agent_runner_node_csr_validation.go:141-151 | Two instances of one name and a match that is overruled |
| `CsrApproval.Decide` | exoscale/sks_agent_runner_node_csr_validation.go:116-153 | The loops that overwrite the flag compute that verdict |
| `CsrApproval.NodeAddrsExactly` | exoscale/sks_agent_runner_node_csr_validation.go:119-139 | The addresses of an instance are its public IP, its IPv6 address, and with a private network the IP provided to its node |
| `CsrApproval.EligibleMeans` | exoscale/sks_agent_runner_node_csr_validation.go:88-157 | A CSR is eligible if and only if it has no conditions, both groups, one DNS name, and all its IP addresses among those of the last instance of that name |
| `CsrApproval.HasRequiredGroups` | exoscale/sks_agent_runner_node_csr_validation.go:182-198 | True if and only if every required group is among those of the CSR |
| `CsrApproval.Agent.HandleEvent` | exoscale/sks_agent_runner_node_csr_validation.go:81-176 | An event is skipped only if there was nothing to check or the instances the API listed do not bear it out, approved only if they do and no one has added a condition since, and else there was a conflict or a counted fault |
| `CsrApproval.Agent.Run` | exoscale/sks_agent_runner_node_csr_validation.go:45-179 | Over any watches, restarts, late deliveries and interference every event is handled in order and accounted for; every approval was decided on an eligible CSR seen without conditions, and the conflict check lets no CSR be approved twice |
| `CsrApproval.Agent.HandleAll` | exoscale/sks_agent_runner_node_csr_validation.go:67-178 | One watch: every event is handled, and as many faults are reported as were met |
| `CsrApproval.ApprovalStore.UpdateApproval` | exoscale/sks_agent_runner_node_csr_validation.go:159-174 | An approval takes effect only if the CSR still has the conditions it was seen with, and then adds one |

## Left out

- Effects that arrive late: a timed-out operation has taken effect when the call returns, or never does.
- Writers that change an NLB in the middle of a run: runs on one NLB follow one another; between runs anything in `Conservation.Next` may happen.
- Service state and health-check status as they evolve, and labels (always empty here).
- Whether the API clears or keeps a field that an update leaves out: the histories assume that it clears it, and `OmittedFields` gives single runs for an API that keeps it.
- HTTP, the client libraries, YAML, environment and file reading, the file watcher, logging, and process exit when the credentials file cannot be opened.
- Durations, decimal integers, PEM and PKCS#10, regular expressions, SHA-256 and label cleaning: they are parameters, and default IDs are distinct by hypothesis (`Unambiguous`).
- Case folding beyond ASCII.
- The look-ups of the client libraries: an NLB or a cluster is found if and only if exactly one has the name or ID, and a node that does not exist reads as none.
- The strategic-merge patch beyond annotations: it is the set of changed keys with their values.
- API calls before the first successful refresh, when there is no client yet, and the log line that reads the credentials after the lock is released.
- CSR watches without end: any finite number of them, each of any finite length. The version that an approval is checked against is modelled by the number of conditions; conflicts over other changes of a CSR would only make more approvals fail.
- Getters and status queries: `GetLoadBalancer` and `GetLoadBalancerName` of the controller, existence and shutdown of instances, `GetZone`.
- An API that stores a service under another name than the one it was sent.
