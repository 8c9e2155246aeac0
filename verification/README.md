# Cluster API provider for metal-stack: a verified model of its three controllers

The provider runs three controllers: one for `MetalStackCluster`, one for
`MetalStackMachine`, one for `MetalStackFirewallDeployment`. They never talk to each
other. They share the objects stored in Kubernetes and the resources of the metal-api,
and coordinate through persisted fields, finalizers, owner references and tags. Every
run of a controller reads a snapshot of its object, calls the metal-api, and only then
patches the object, so a patch can be lost after a real allocation or a real free.

This project models the three controllers as one protocol and proves what holds over
all its runs, for every interleaving, every reply of the metal-api and every lost patch.

## How it is laid out

| file | what it holds |
|---|---|
| `Names.dfy`, `Store.dfy`, `Metal.dfy` | strings (provider id, qualified names, tags), stored objects and the patch, the metal-api with the reply to every call as an input |
| `MachineSpec.dfy`, `ClusterSpec.dfy`, `FirewallSpec.dfy` | what one run computes, as functions of snapshot, provider and replies |
| `Clients.dfy`, `MachineController.dfy`, `ClusterController.dfy`, `FirewallController.dfy` | the controllers in the code's own form: objects whose fields are updated step by step around the calls, with the code's loops; each method is proved equal to its specification, and an uninterrupted `Reconcile` equal to steps of the protocol |
| `Protocol.dfy` | the transition system: load, act, patch (applied or lost) and removal for each kind of object, users, clock, and the world outside |
| `Invariant.dfy`, `MachineSteps.dfy`, `DeploymentSteps.dfy`, `ClusterSteps.dfy`, `StepFrames.dfy`, `Reachable.dfy` | the invariant and its proof for every step |
| `Safety.dfy`, `Networks.dfy`, `History.dfy`, `Ownership.dfy`, `Windows.dfy` | what follows for all runs: teardown order, conservation, accounting, finalizers over networks and addresses, gates, values written once, who owns what is freed, firewalls behind machines |
| `Convergence.dfy` | repeated runs of one controller: fixed points, repeated deletion, grace period; what a machine object shows of its machine |
| `Outcomes.dfy` | when a run succeeds, exactly, and what it leaves on its object, on other objects and at the provider, for every reply |
| `Requests.dfy` | what is asked of the provider: every new machine and firewall field by field, tags as text |
| `Patches.dfy` | what a patch stores, in every run, and fixed points over whole runs of the protocol |
| `Liveness.dfy`, `ControllerRuns.dfy`, `Termination.dfy`, `Fairness.dfy` | whole-deletion termination |
| `Hazards.dfy` | where the code does not keep what one would wish for, and exactly when; when a deletion does not end |

A run of a controller is three steps of the protocol, load, act and patch, and four for
the deletion of a cluster or of a firewall deployment, where the guard that looks for
machines and what is behind it are separate steps. Anything else may happen between
them. Runs for one object do not overlap. Books kept beside the state
count allocations, lost ones and orphans; no controller reads them.

## What is assumed

* Project, partition and the firewall deployment reference of a cluster do not change.
  Users do not edit `nodeNetworkID`, `controlPlaneIP` and `controlPlaneEndpoint` of an
  existing cluster and do not strip finalizers; they may remove
  `managedResourceRef` by hand, as the documentation tells them to.
* The metal-api returns ids that are not empty. A host without an allocation counts as
  absent. A tag search returns the hosts that carry all the tags asked for. Names of
  networks and addresses are not handed out twice, nor such as a user has given to a
  cluster; ids of machines may be. Hosts of others carry whatever tags, but not the one
  that names a firewall deployment.
* Machine objects carry the cluster-name label, a cluster and its infrastructure
  cluster share one key, and machine objects are created only for clusters that are not
  being deleted. A cluster that its controller has not picked up yet is deleted only
  while it has no machine objects. `Hazards.dfy` shows what happens otherwise. New
  objects carry no provider id, no finalizer and no status, and a cluster no empty
  control-plane address.
* Only the cluster controller sets owner references of firewall deployments, and the
  API server accepts one controlling owner. Uids are not used again. A snapshot is
  current when it is read.
* Namespaces hold no dot (they are DNS labels, section 2.1 of RFC 1123) and partitions
  hold no slash.

## Where code and documentation differ

* The firewall deployment controller marks an object that is not paused with the reason
  for a paused one (`internal/controller/metalstackfirewalldeployment_controller.go:144-149`);
  the model does the same.
* The deletion of a cluster returns no error while it waits for the firewall deployment
  (`internal/controller/metalstackcluster_controller.go:402-405`), so nothing but another
  event brings it back; termination therefore rests on fair scheduling.
* A control-plane address that the controller has acquired itself stands in
  `controlPlaneEndpoint` only and is never freed; the accounting says so.

## Model

| member | source | states |
|---|---|---|
| Names.ProviderIDRoundTrip | internal/controller/metalstackmachine_controller.go:658-666 | decoding undoes encoding, for any id even with slashes, exactly when the partition has no slash; an encoded id is never empty |
| Names.ProviderIDInjective | internal/controller/metalstackmachine_controller.go:658-660 | two stored provider ids are equal only for the same partition and machine |
| Names.DecodesBehindFirstSlash | internal/controller/metalstackmachine_controller.go:662-666 | whatever text is stored, with the scheme or without, decoding gives what stands behind the first slash, and nothing where there is none |
| Names.FullNameInjective | internal/controller/metalstackfirewalldeployment_controller.go:459-464 | `namespace.name` names one object when namespaces have no dot |
| Names.FullNameNeedsDotFreeNamespaces | internal/controller/metalstackfirewalldeployment_controller.go:459-464 | without that rule two objects share one qualified name |
| Names.RenderInjective | internal/controller/metalstackfirewalldeployment_controller.go:375-380 | different tags have different texts, whatever their values hold |
| Names.SearchOnTexts | internal/controller/metalstackfirewalldeployment_controller.go:467-471 | searching on tag texts finds what searching on key and value finds |
| Names.FirewallTagsIsolate | internal/controller/metalstackfirewalldeployment_controller.go:459-471 | a deployment's search finds a firewall exactly when it was created for the same deployment, cluster and node network |
| Names.MachineTagsIsolate | internal/controller/metalstackmachine_controller.go:635-656 | a machine carries all tags of another object's request exactly when it is the same object on the same network, and the control-plane tag only for a control-plane machine |
| Names.MachineTagsNeverMatch | internal/controller/metalstackmachine_controller.go:635-656 | no machine answers any firewall search |
| MachineSpec.Observed | internal/controller/metalstackmachine_controller.go:380-435 | recording a found machine keeps what identifies the object, stores a provider id that decodes to that machine, and makes the object ready and provisioned exactly when it was or when the newest event is the machine phoning home |
| MachineSpec.Renew | internal/controller/metalstackmachine_controller.go:351-366 | with a recorded machine nothing is allocated, not even after it was deleted externally, and the object goes on to name the same machine |
| MachineSpec.Create | internal/controller/metalstackmachine_controller.go:483-525 | at most one host is allocated, with the documented request, and it is recorded unless the run failed |
| MachineSpec.Reconcile | internal/controller/metalstackmachine_controller.go:330-436 | an allocation takes a stored network, an endpoint host, a bootstrap secret and an empty provider id |
| MachineSpec.Delete | internal/controller/metalstackmachine_controller.go:438-481 | only the recorded machine is freed, only in the cluster's project; the finalizer goes only once that machine is out of the project, for a control-plane machine only after the grace period |
| MachineSpec.Run | internal/controller/metalstackmachine_controller.go:150-184 | what any run may do: paused runs touch no provider resource, provisioning allocates at most once, deletion frees at most the recorded machine, and when the finalizer may appear or go |
| ClusterSpec.EnsureNetwork | internal/controller/metalstackcluster_controller.go:425-444 | a recorded network is kept and nothing allocated; success without one means exactly one fresh network |
| ClusterSpec.Adopt | internal/controller/metalstackcluster_controller.go:460-487 | success means the referenced deployment exists and is owned by this cluster, was not another's, and nothing else changed |
| ClusterSpec.EnsureIP | internal/controller/metalstackcluster_controller.go:489-527 | a given address is used as it is; otherwise at most one fresh address is spent, and an answer is never empty |
| ClusterSpec.EnsureEndpoint | internal/controller/metalstackcluster_controller.go:353-385 | an endpoint with a host is kept and no address acquired; otherwise success stores the given address, or the one just granted, with port 443; an error leaves endpoint and readiness alone |
| ClusterSpec.Reconcile | internal/controller/metalstackcluster_controller.go:311-386 | recorded network and endpoint are never replaced; success means network, endpoint and readiness together, the endpoint being the given or granted address with port 443 |
| ClusterSpec.Guard | internal/controller/metalstackcluster_controller.go:388-405 | the teardown is reached only without machines and without the referenced deployment; at most its deletion is requested; a nil dereference happens exactly without a firewall reference |
| ClusterSpec.DeleteIP | internal/controller/metalstackcluster_controller.go:577-611 | at most the given address is freed and never a static one; success leaves it absent or static |
| ClusterSpec.DeleteNetwork | internal/controller/metalstackcluster_controller.go:446-458 | at most the recorded network is freed; success leaves it absent |
| ClusterSpec.Teardown | internal/controller/metalstackcluster_controller.go:407-422 | the finalizer goes exactly when address and network are gone; an error keeps finalizer and network recorded |
| ClusterSpec.RunUp | internal/controller/metalstackcluster_controller.go:134-145 | paused runs and the run that adds the finalizer touch neither provider nor deployments |
| FirewallSpec.FirewallNetworks | internal/controller/metalstackfirewalldeployment_controller.go:387-399 | the template's networks in order, and the node network behind them only if it is not one of them |
| FirewallSpec.Egress | internal/controller/metalstackfirewalldeployment_controller.go:405-413 | one rule per template rule, in order, field by field |
| FirewallSpec.Ingress | internal/controller/metalstackfirewalldeployment_controller.go:415-423 | one rule per template rule, in order, field by field |
| FirewallSpec.OwnTemplate | internal/controller/metalstackfirewalldeployment_controller.go:343-367 | an owner already there changes nothing; otherwise only the owner list of this template changes |
| FirewallSpec.Allocate | internal/controller/metalstackfirewalldeployment_controller.go:425-451 | one fresh firewall and on success a reference to it; `Requests.FirewallRequested` says what is asked for, `Patches.DeploymentSettles` what is stored |
| FirewallSpec.Reconcile | internal/controller/metalstackfirewalldeployment_controller.go:260-296 | an allocation takes a node network, a rule set and no stored reference; a stored reference is kept |
| FirewallSpec.LoopFrees | internal/controller/metalstackfirewalldeployment_controller.go:480-494 | partial failure: the loop takes away exactly the firewalls whose free went through and collects an error for exactly those whose free was not confirmed |
| FirewallSpec.NoErrorsFreeAll | internal/controller/metalstackfirewalldeployment_controller.go:476-494 | without an error every firewall found is gone |
| Windows.GuardCloses | internal/controller/metalstackfirewalldeployment_controller.go:308-316 | a run goes past its guard only for an object with finalizer that is being deleted, at a moment when its cluster has no machine object |
| FirewallSpec.Reclaim | internal/controller/metalstackfirewalldeployment_controller.go:454-495 | all firewalls found by the tags are freed, never by the stored reference; the finalizer goes exactly when no error was collected; a nil dereference happens exactly without a node network |
| FirewallSpec.Delete | internal/controller/metalstackfirewalldeployment_controller.go:298-322 | the finalizer goes exactly when the run succeeds, and behind the machines; a nil dereference happens exactly behind the guard without a node network |
| FirewallSpec.RunUp | internal/controller/metalstackfirewalldeployment_controller.go:135-163 | paused runs and the run that adds the finalizer touch no provider resource; none of these arms drops a finalizer or replaces a reference |
| FirewallSpec.Run | internal/controller/metalstackfirewalldeployment_controller.go:135-171 | what any run may do to provider, object and finalizer |
| MachineController.MachineReconciler.FindProviderMachine | internal/controller/metalstackmachine_controller.go:582-608 | the lookup by decoded id and project, and the condition a failed one leaves |
| MachineController.MachineReconciler.Create | internal/controller/metalstackmachine_controller.go:483-525 | the request and what the provider holds after it, none without the bootstrap secret |
| MachineController.MachineReconciler.GetMachineStatus | internal/controller/metalstackmachine_controller.go:527-548 | ready exactly when the newest event is the machine phoning home; each of the three troubles is reported exactly when the machine has it |
| MachineController.MachineReconciler.GetMachineAddresses | internal/controller/metalstackmachine_controller.go:550-580 | the nested loops, one for each kind of interface, compute the list of which `Convergence.AddressProjection` and `Convergence.NoOtherAddress` say what it holds |
| MachineController.MachineReconciler.PatchMachineLabels | internal/controller/metalstackmachine_controller.go:610-633 | the labels that are set and those that stay |
| MachineController.MachineReconciler.Observe | internal/controller/metalstackmachine_controller.go:380-435 | once a machine is at hand: status, labels, addresses, provider id, conditions and requeue become those of the specification, of which `Convergence.ShowsTheMachine` says what they are |
| MachineController.MachineReconciler.Reconcile | internal/controller/metalstackmachine_controller.go:330-436 | step by step the code ends with the object, the provider, the error and the requeue of the specified provisioning, on every reply |
| MachineController.MachineReconciler.Delete | internal/controller/metalstackmachine_controller.go:438-481 | the same for deletion: at most the recorded machine freed, grace period waited for, finalizer dropped exactly when specified |
| MachineController.MachineReconciler.Run | internal/controller/metalstackmachine_controller.go:150-176 | the choice between paused, deleting, adding the finalizer and provisioning is the specified one |
| MachineController.MetalStackMachineReconciler.Reconcile | internal/controller/metalstackmachine_controller.go:87-184 | an uninterrupted run is load, act and patch of the protocol; it reports an error exactly when the run failed or the patch was lost |
| MachineController.Uninterrupted | internal/controller/metalstackmachine_controller.go:144-183 | load, act and an applied patch in a row store the object exactly as the run left it; a lost patch stores nothing |
| ClusterController.ClusterReconciler.EnsureNodeNetwork | internal/controller/metalstackcluster_controller.go:425-444 | the recorded or a newly allocated network |
| ClusterController.ClusterReconciler.EnsureFirewallDeployment | internal/controller/metalstackcluster_controller.go:460-487 | the store afterwards differs only in the adopted deployment, and success is the specified one |
| ClusterController.ClusterReconciler.EnsureControlPlaneIP | internal/controller/metalstackcluster_controller.go:489-527 | the address answered and the provider afterwards are the specified ones, on every reply |
| ClusterController.ClusterReconciler.EnsureMachinesAreGone | internal/controller/metalstackcluster_controller.go:529-546 | success exactly when the list was answered and no machine object belongs to the cluster |
| ClusterController.ClusterReconciler.EnsureFirewallDeploymentIsGone | internal/controller/metalstackcluster_controller.go:548-575 | gone exactly when looked up and absent; otherwise at most its deletion is requested |
| ClusterController.ClusterReconciler.DeleteControlPlaneIP | internal/controller/metalstackcluster_controller.go:577-611 | success and the provider afterwards are the specified ones: a static or absent address is left alone |
| ClusterController.ClusterReconciler.DeleteNodeNetwork | internal/controller/metalstackcluster_controller.go:446-458 | success and the provider afterwards are the specified ones, with no branch for an absent network |
| ClusterController.ClusterReconciler.ReconcileNodeNetwork | internal/controller/metalstackcluster_controller.go:312-328 | network and condition become those of the specification, before anything else is touched |
| ClusterController.ClusterReconciler.ReconcileFirewallDeployment | internal/controller/metalstackcluster_controller.go:332-351 | with a reference the deployment is adopted and the condition set; without one nothing happens |
| ClusterController.ClusterReconciler.ReconcileEndpoint | internal/controller/metalstackcluster_controller.go:353-385 | endpoint, readiness and condition become those of the specification, which `ClusterSpec.EnsureEndpoint` and `Outcomes.AddressOutcome` pin down, and at most one address is acquired |
| ClusterController.ClusterReconciler.Reconcile | internal/controller/metalstackcluster_controller.go:311-386 | the three parts in order, stopping at the first error, end with the object, store and provider of the specification |
| ClusterController.ClusterReconciler.Delete | internal/controller/metalstackcluster_controller.go:388-423 | guard and teardown in a row: the order machines, deployment, address, network, finalizer is kept on every reply |
| ClusterController.FailsToDelete | internal/controller/metalstackcluster_controller.go:388-423 | a deletion fails exactly when machines are left or cannot be listed, when there is no reference to follow, or when behind the guard address or network cannot be given back; waiting for the deployment is no error |
| ClusterController.ClusterReconciler.Run | internal/controller/metalstackcluster_controller.go:118-145 | the choice between paused, deleting, adding the finalizer and provisioning is the specified one |
| ClusterController.MetalStackClusterReconciler.Reconcile | internal/controller/metalstackcluster_controller.go:79-153 | an uninterrupted run is four steps of the protocol; a run that panics patches nothing; an error is reported exactly when the run failed or its patch was lost |
| ClusterController.GuardAndTeardown | internal/controller/metalstackcluster_controller.go:388-423 | the protocol's two steps of a deletion in a row are the code's `delete` |
| FirewallController.FirewallReconciler.EnsureMachinesAreGone | internal/controller/metalstackfirewalldeployment_controller.go:324-341 | success exactly when the list was answered and no machine object belongs to the cluster |
| FirewallController.FirewallReconciler.EnsureTemplateOwner | internal/controller/metalstackfirewalldeployment_controller.go:343-367 | only the owner list of this template changes in the store, and only when the owner was missing and the patch went through |
| FirewallController.FirewallReconciler.RequestNetworks | internal/controller/metalstackfirewalldeployment_controller.go:387-399 | the loop builds the specified list |
| FirewallController.FirewallReconciler.RequestRules | internal/controller/metalstackfirewalldeployment_controller.go:405-423 | the loops build the specified rules |
| FirewallController.FirewallReconciler.EnsureFirewallDeployment | internal/controller/metalstackfirewalldeployment_controller.go:369-452 | an existing reference or a missing rule set allocates nothing; otherwise the request, of which `Requests.FirewallHostAsks` says every field, and its reference |
| FirewallController.FirewallReconciler.Reconcile | internal/controller/metalstackfirewalldeployment_controller.go:260-296 | step by step the code ends with the object, templates, provider and error of the specified provisioning |
| FirewallController.FirewallReconciler.DeleteFirewallDeployment | internal/controller/metalstackfirewalldeployment_controller.go:454-495 | the loop over all firewalls found, errors collected in order |
| FirewallController.FirewallReconciler.Delete | internal/controller/metalstackfirewalldeployment_controller.go:298-322 | machines before firewalls before the finalizer; errors of the loop and a missing network id end it as specified |
| FirewallController.FirewallReconciler.Run | internal/controller/metalstackfirewalldeployment_controller.go:135-163 | the choice between paused, deleting, adding the finalizer and provisioning is the specified one |
| FirewallController.MetalStackFirewallDeploymentReconciler.Reconcile | internal/controller/metalstackfirewalldeployment_controller.go:68-171 | an uninterrupted run is load, guard, act and patch of the protocol; a run that panics patches nothing; an error is reported exactly when the run failed or its patch was lost |
| FirewallController.ActAtOnce | internal/controller/metalstackfirewalldeployment_controller.go:298-322 | guard and reclamation as two steps in a row do what the whole run computes |
| FirewallController.Uninterrupted | internal/controller/metalstackfirewalldeployment_controller.go:130-168 | all steps of a run in a row with an applied patch store the deployment exactly as the run left it, its reference with it; a lost patch and a panic store nothing |
| Reachable.ReachedInv | internal/controller/metalstackcluster_controller.go:388-423 | the invariant of the three controllers holds in every state that is ever reached, whatever the interleaving, the replies and the lost patches |
| Safety.TeardownOrder | internal/controller/metalstackcluster_controller.go:388-423 | whenever a network is freed, its cluster has no machine object, no firewall deployment and no firewall, and every provider machine left over is an orphan of a lost patch, counted |
| Safety.HostsOnTheirNetwork | internal/controller/metalstackmachine_controller.go:483-525 | in every reached state a machine or firewall of ours that is no orphan runs on the network its own cluster records |
| Safety.LeftOnFreedNetwork | internal/controller/metalstackcluster_controller.go:446-458 | whenever a network is freed, a host of ours left on it that is no orphan belongs to another cluster that records the same network |
| Safety.OnlyGivenAddressesAreFreed | internal/controller/metalstackcluster_controller.go:577-611 | whenever an address is freed it is the one given in `controlPlaneIP`, not static, and its cluster is torn down |
| Safety.FirewallsConserved | internal/controller/metalstackfirewalldeployment_controller.go:454-495 | when a deployment is gone or has given up its finalizer, no live firewall answers any search by its tags, also when a reference was lost or removed by hand |
| Safety.DeletionTagsAreCreationTags | internal/controller/metalstackfirewalldeployment_controller.go:459-464 | in every run the tags a deployment deletes by are those its live firewalls were created with |
| Safety.FreesOwnFirewalls | internal/controller/metalstackfirewalldeployment_controller.go:454-495 | the deployment controller frees only firewalls of its own deployment, and only behind the guard of a deletion |
| Windows.FirewallsOutliveMachines | internal/controller/metalstackfirewalldeployment_controller.go:308-316 | a run that passed its guard while the cluster was being deleted frees firewalls only while the cluster has no machine object, whatever happened in between |
| Windows.FirewallWindow | internal/controller/metalstackfirewalldeployment_controller.go:308-316 | when the deployment alone is deleted, a machine created between guard and frees is not noticed: the firewalls go all the same |
| Safety.MachineAccounting | internal/controller/metalstackmachine_controller.go:351-390 | allocations for an object are one if a machine is recorded, plus the lost ones, plus one that a patch under way will record |
| Safety.ClusterAccounting | internal/controller/metalstackcluster_controller.go:425-444 | at every moment, also with a run under way and once the cluster is gone: networks allocated are the one recorded, the one about to be, those lost and those given back; acquired addresses are never given back, at most one is recorded, and a cluster that goes leaves it behind |
| Safety.FinalizerCoversNetwork | internal/controller/metalstackcluster_controller.go:407-422 | a network that was allocated for a cluster and is recorded is held by the finalizer of that cluster |
| Networks.FinalizerCoversRecord | internal/controller/metalstackcluster_controller.go:407-422 | the finalizer of a cluster goes only by a patch, and then the provider has neither the recorded network, allocated or named by the user, nor the given address unless it is static |
| Networks.ClearedIsGivenBack | internal/controller/metalstackcluster_controller.go:407-417 | whatever a patch drops of the record, network or given address, the provider no longer has, a static address apart; an allocated network is counted as given back |
| Networks.GivenBackForGood | internal/controller/metalstackcluster_controller.go:446-458 | network and address that are gone do not come back in any run |
| Safety.FinalizerCoversMachine | internal/controller/metalstackmachine_controller.go:438-481 | a provider machine that is no orphan has its object, with finalizer, which knows it or is about to record it |
| Safety.ClusterOutlives | internal/controller/metalstackmachine_controller.go:125-132 | the cluster object outlives its machines and its deployment, so the exit for a missing cluster strands no finalized machine |
| Safety.MachineGates | internal/controller/metalstackmachine_controller.go:331-342 | in every run a machine is allocated only behind the endpoint stored at that moment, with a secret and no stored provider id, and is what the stored object and cluster ask for: on the stored network alone, in project and partition, with name, image, size and tags |
| Safety.FirewallGates | internal/controller/metalstackfirewalldeployment_controller.go:387-440 | in every run a firewall is allocated only for a deployment with finalizer that stores no reference, and is what the template and the stored cluster ask for: its rules and networks, the node network, project, partition, image, size, tags |
| Safety.ReadyMeansPlaced | internal/controller/metalstackcluster_controller.go:353-383 | a ready cluster that is not being deleted has network and endpoint stored; a provisioned machine has its provider id stored |
| History.MachineWrittenOnce | internal/controller/metalstackmachine_controller.go:351-390 | once a provider id is stored nothing is allocated for the object again, it keeps naming the same machine, stays provisioned, and never comes back once gone |
| History.NetworkWrittenOnce | internal/controller/metalstackcluster_controller.go:312-328 | from first persistence on network and endpoint stay what they are, in every run, as long as the cluster object is there and does not lose its finalizer |
| History.NetworkKeptForOthers | internal/controller/metalstackcluster_controller.go:402-417 | so they stay as long as a machine or deployment belongs to the cluster, which keeps object and finalizer |
| History.ReferenceWrittenOnce | internal/controller/metalstackfirewalldeployment_controller.go:383-385 | from the moment a deployment stores a reference it keeps it and no firewall is allocated for it again, in every run, as long as the object is there and nobody removes the reference by hand |
| History.GraceHolds | internal/controller/metalstackmachine_controller.go:445-480 | a machine's finalizer goes only by a patch, while it is being deleted and holds nothing but orphans, for a control-plane machine only after deletion plus thirty seconds |
| History.ClusterGoesLast | internal/controller/metalstackcluster_controller.go:397-420 | a cluster's finalizer goes only by a patch, while it is being deleted and when nothing of it is left but orphans |
| Ownership.OwnedAlways | internal/controller/metalstackmachine_controller.go:387-390 | without recycling of claimed ids, provider ids of live objects are pairwise distinct and each names the machine allocated for its object |
| Ownership.FreesTheRecorded | internal/controller/metalstackmachine_controller.go:445-469 | every machine freed is the one recorded, in the cluster's project, and the object is being deleted |
| Ownership.FreeSafety | internal/controller/metalstackmachine_controller.go:582-608 | without recycling, every machine freed was allocated for that very object and is recorded by no other |
| Ownership.SearchedThenFreed | internal/controller/metalstackfirewalldeployment_controller.go:466-494 | search and frees of a deletion may lie apart, each free on its own, with anything in between: as long as ids that were found are not handed out again, whatever answers to one of them is a firewall of this deployment, and once each was freed none of its firewalls is left |
| Ownership.RenewedFirewallIsFreed | internal/controller/metalstackfirewalldeployment_controller.go:480-494 | without that, one that was freed and went to someone else in between is taken from its new owner |
| Convergence.AddressProjection | internal/controller/metalstackmachine_controller.go:550-580 | exact length, and every address at its place: those of a private network as internal, those of an external one as external, after the hostname |
| Convergence.NoOtherAddress | internal/controller/metalstackmachine_controller.go:550-580 | every position behind the hostname is one address of one interface of these two kinds, with its type |
| Convergence.ShowsTheMachine | internal/controller/metalstackmachine_controller.go:380-435 | after a successful run the object shows the machine it records: ready and provisioned exactly when they were or the newest event is its phoning home, the three conditions by its state, its provider id as text, labels as the provider says them and untouched where it says nothing, its addresses, and a requeue after thirty seconds exactly until it is alive, in no crash loop, without failing reclaim and has phoned home |
| Convergence.ProvisionedIsInPlace | internal/controller/metalstackcluster_controller.go:311-386 | a run without error leaves network, owned deployment, endpoint and their conditions in place |
| Convergence.FailureShowsWhere | internal/controller/metalstackcluster_controller.go:312-362 | a run with an error says by its conditions which of network, deployment and address is missing, and has those before it in place |
| Convergence.MachineFixedPoint | internal/controller/metalstackmachine_controller.go:330-436 | after a successful run the next one changes neither object nor provider |
| Convergence.ClusterFixedPoint | internal/controller/metalstackcluster_controller.go:311-386 | after a successful run the next one changes neither object, deployment nor provider |
| Convergence.DeploymentFixedPoint | internal/controller/metalstackfirewalldeployment_controller.go:260-296 | after a successful run the next one changes neither object, template nor provider |
| Convergence.ManagedRefDecodes | internal/controller/metalstackfirewalldeployment_controller.go:447-449 | the stored reference decodes to the firewall just allocated |
| Convergence.ReclaimShrinks | internal/controller/metalstackfirewalldeployment_controller.go:298-322 | a deleting deployment only makes firewalls fewer; its finalizer goes only when none of its firewalls is left |
| Convergence.LoopLeavesRefused | internal/controller/metalstackfirewalldeployment_controller.go:480-494 | after the loop the live firewalls of the deployment are exactly those whose free was refused |
| Convergence.TeardownAgain | internal/controller/metalstackcluster_controller.go:446-458 | a teardown repeated after a lost patch frees nothing twice, and can succeed exactly when there is no network to free or the provider accepts freeing an absent one |
| Convergence.GraceBound | internal/controller/metalstackmachine_controller.go:445-461 | a control-plane machine first seen absent within the grace period is let go after at most three more runs, within fifteen seconds behind it |
| Convergence.FreedFirst | internal/controller/metalstackmachine_controller.go:466-480 | on the path that frees first, the one-minute requeue always clears the grace period |
| Outcomes.MachineOutcome | internal/controller/metalstackmachine_controller.go:330-378 | provisioning succeeds exactly when network, endpoint and secret name are there and the recorded machine is found in the project or a new one granted; a machine is asked for only behind all of these; a failure leaves just the condition or the failure that says what is missing |
| Outcomes.DeletionOutcome | internal/controller/metalstackmachine_controller.go:438-481 | of a deletion, exactly: when the recorded machine is freed, when the finalizer goes, when the run fails, and when it comes again: a minute behind the free of a control-plane machine, fifteen seconds within its thirty seconds |
| Outcomes.IdleMachine | internal/controller/metalstackmachine_controller.go:150-176 | a paused run and one that adds the finalizer change nothing but finalizer and paused condition |
| Outcomes.NetworkOutcome | internal/controller/metalstackcluster_controller.go:312-328 | success exactly with a recorded or granted network; a granted one is recorded and in the project of the cluster |
| Outcomes.OwnerOutcome | internal/controller/metalstackcluster_controller.go:332-351 | success exactly when the referenced deployment is found and is the cluster's own, or is nobody's and the update goes through; then it is owned and labelled, and nothing else changes |
| Outcomes.AddressOutcome | internal/controller/metalstackcluster_controller.go:353-383 | success exactly with an endpoint, a given address or a granted one from the only default network, which alone is asked; a granted one is ephemeral |
| Outcomes.ClusterOutcome | internal/controller/metalstackcluster_controller.go:311-386 | the whole of provisioning: when it succeeds, what it leaves on object, deployments and provider, and the conditions of the parts it came to, on every reply |
| Outcomes.IdleCluster | internal/controller/metalstackcluster_controller.go:118-145 | a paused run and one that adds the finalizer change nothing but finalizer and paused condition |
| Outcomes.TeardownOutcome | internal/controller/metalstackcluster_controller.go:407-422 | success exactly when address and network go; a dropped address stays dropped when the network cannot be freed, network and finalizer go together |
| Outcomes.GuardOutcome | internal/controller/metalstackcluster_controller.go:397-405 | the guard fails exactly while machines are left or cannot be listed and lets through exactly when the deployment, looked up, is absent |
| Outcomes.DeploymentOutcome | internal/controller/metalstackfirewalldeployment_controller.go:260-296 | success exactly with a node network, an owned template and a stored reference or a granted firewall, which is asked for only behind these and with rules; what it leaves on object and template; the stored reference as text |
| Outcomes.ReclaimOutcome | internal/controller/metalstackfirewalldeployment_controller.go:454-495 | success, and with it the loss of the finalizer, exactly when the firewalls were found and every single free was confirmed; what could be freed is gone also when it fails |
| Outcomes.IdleDeployment | internal/controller/metalstackfirewalldeployment_controller.go:135-163 | a paused run and one that adds the finalizer change nothing but finalizer and paused condition, whose reason says paused either way |
| Requests.FirewallTagTexts | internal/controller/metalstackfirewalldeployment_controller.go:375-380 | the four tags of a firewall as text |
| Requests.MachineTagTexts | internal/controller/metalstackmachine_controller.go:635-656 | the tags of a machine as text, the one for its role only on a control-plane machine |
| Requests.MachineRequested | internal/controller/metalstackmachine_controller.go:483-525 | every host new after a run of the machine controller is a worker on the node network alone, in project and partition of the cluster read, with name, image, size and tags of the object read, for an object with finalizer, secret and no provider id |
| Requests.FirewallHostAsks | internal/controller/metalstackfirewalldeployment_controller.go:387-440 | the request carries every rule of the template in order and field by field, its networks and behind them the node network unless it is one of them, image and size, project and partition, tags |
| Requests.FirewallRequested | internal/controller/metalstackfirewalldeployment_controller.go:387-440 | every host new after a run of the deployment controller is that request for the template and the cluster it read, for an object with finalizer and no reference |
| Requests.SearchAsks | internal/controller/metalstackfirewalldeployment_controller.go:466-471 | the search of a deployment finds exactly the firewalls in project and partition that carry the texts of its tags |
| Patches.MachinePatch | internal/controller/metalstackmachine_controller.go:178-181 | an applied patch of a machine object, field by field: what the run changed is stored as the run left it, every other field stays as stored; a lost patch stores nothing |
| Patches.ClusterPatch | internal/controller/metalstackcluster_controller.go:147-150 | the same for network, address, endpoint, finalizer, readiness and conditions of a cluster object |
| Patches.DeploymentPatch | internal/controller/metalstackfirewalldeployment_controller.go:165-168 | the same for reference, finalizer, readiness and conditions of a firewall deployment |
| Patches.MachinePatchLosesNothing | internal/controller/metalstackmachine_controller.go:178-181 | in every run, whatever happened since the object was read, an applied patch stores the object as the run left it, with deletion request and bootstrap secret as they are by now |
| Patches.ClusterPatchLosesNothing | internal/controller/metalstackcluster_controller.go:147-150 | the same for a cluster object, where only the deletion request may be newer |
| Patches.DeploymentPatchLosesNothing | internal/controller/metalstackfirewalldeployment_controller.go:165-168 | the same for a firewall deployment, where a user may have removed the reference meanwhile |
| Patches.DeploymentSettles | internal/controller/metalstackfirewalldeployment_controller.go:130-168 | load, act, act and an applied patch store a reference that decodes to the one firewall that is new, which is what template and cluster ask for; a second whole run, on any replies and with its patch applied or lost, changes nothing in the whole system |
| Patches.MachineSettles | internal/controller/metalstackmachine_controller.go:144-183 | load, act and an applied patch store an object that shows the one machine that is new, which is what object and cluster ask for; a second whole run that finds it changes neither store nor provider |
| Patches.ClusterSettles | internal/controller/metalstackcluster_controller.go:110-150 | load, act, act and an applied patch store network and endpoint, the given address with port 443 if there is one, own the deployment and make the cluster ready; a second whole run changes neither store nor provider |
| Liveness.ShrinkingWork | internal/controller/metalstackmachine_controller.go:438-481 | the number that measures a deletion, stale allocations to come included, falls exactly when something that counts is no longer as it was |
| Liveness.StepAdvances | internal/controller/metalstackcluster_controller.go:388-423 | every calm step, of whatever controller, user or outside party, keeps the winding down going and enlarges nothing that counts |
| ControllerRuns.MachineRunWorks | internal/controller/metalstackmachine_controller.go:438-481 | past the grace periods a whole run for a machine, interleaved with anything, changes what counts |
| ControllerRuns.DeploymentRunWorks | internal/controller/metalstackfirewalldeployment_controller.go:298-322 | without machines a whole run for a deleting deployment, interleaved with anything, makes it go |
| ControllerRuns.ClusterRunWorks | internal/controller/metalstackcluster_controller.go:388-423 | without machines a whole run for the cluster requests the deployment's deletion or makes the cluster go |
| Termination.RoundWorks | internal/controller/metalstackcluster_controller.go:388-423 | every round of fair scheduling makes the measure smaller until everything is gone, and gone it stays |
| Termination.WorkBound | internal/controller/metalstackmachine_controller.go:438-481 | a machine weighs at most two, also with an allocation that a run loaded before the request may still make; deployment and cluster weigh three |
| Termination.RequestedIsUnderway | internal/controller/metalstackcluster_controller.go:388-423 | from any reached state in which cluster and machines are marked and reference, template and node network are in place, whatever runs were loaded before the request, the deletion is under way |
| Termination.WholeDeletion | internal/controller/metalstackcluster_controller.go:388-423 | once it is under way, as many rounds of fair scheduling as the measure says remove machines, deployment and cluster, with stale runs finishing in between |
| Fairness.MachineTurn | internal/controller/metalstackmachine_controller.go:166-181 | from every state, also with a run under way, a calm turn ends that run and makes a whole new one |
| Fairness.DeploymentTurn | internal/controller/metalstackfirewalldeployment_controller.go:152-168 | the same for the deployment controller |
| Fairness.ClusterTurn | internal/controller/metalstackcluster_controller.go:134-150 | the same for the cluster controller |
| Fairness.FairPath | internal/controller/metalstackcluster_controller.go:134-150 | from every state there is a calm path with as many rounds of fair scheduling as one likes |
| Fairness.DeletionCanEnd | internal/controller/metalstackcluster_controller.go:388-423 | every deletion that is under way can be brought to its end by such a path: the hypotheses of termination can be met |
| Hazards.WindowRace | internal/controller/metalstackcluster_controller.go:397-416 | a machine object created between guard and teardown is not noticed: the network is freed under it |
| Hazards.SharedNetworkIsFreed | internal/controller/metalstackcluster_controller.go:446-458 | a network that two clusters record goes with the first of them, under the hosts of the other |
| Hazards.GuardTakesWhateverIsNamed | internal/controller/metalstackcluster_controller.go:548-575 | the guard requests the deletion of the deployment the cluster names exactly when finalizer, list, lookup and call allow it, whoever owns the deployment |
| Hazards.ForeignFirewallsGo | internal/controller/metalstackcluster_controller.go:548-575 | so deleting a cluster that names the deployment of another takes away the firewalls of that other, which is not being deleted, once it has no machine |
| Hazards.FreesWhatItFinds | internal/controller/metalstackmachine_controller.go:603-607 | a deletion frees the host behind the recorded id exactly when it is in the project, whoever owns it |
| Hazards.RecycledMachineIsFreed | internal/controller/metalstackmachine_controller.go:603-607 | a machine that went to someone else in the project under a freed id is taken away |
| Hazards.TeardownFreesExactly | internal/controller/metalstackcluster_controller.go:577-611 | an address goes exactly when it is the given one, ephemeral, found and not refused; an acquired one stays |
| Hazards.StrandedForEver | internal/controller/metalstackmachine_controller.go:126-129 | a finalized machine whose cluster is gone is left alone for ever |
| Hazards.EarlyDeletionStrands | internal/controller/metalstackmachine_controller.go:126-129 | from every reached state: after creating a cluster and a machine and one run for the machine, deleting the cluster before its controller has picked it up would strand the machine; the protocol excludes just that request |
| Hazards.JamArises | internal/controller/metalstackcluster_controller.go:311-351 | one lost patch of the first pass, after network and deployment were taken, and a request to delete the cluster jam the deletion |
| Hazards.JammedForEver | internal/controller/metalstackfirewalldeployment_controller.go:459-461 | a deleting cluster without network whose deployment holds its finalizer stays, and so does the deployment, in every run, whether the deployment's deletion has been requested or not: it dereferences the missing network id |
| Hazards.StuckForEver | internal/controller/metalstackcluster_controller.go:446-458 | without a firewall deployment reference, or with the recorded network gone and a provider that refuses to free it again, a cluster keeps its finalizer in every run |
| Hazards.LostTeardownSticks | internal/controller/metalstackcluster_controller.go:407-417 | one lost patch after a teardown leads to the second of these, when the provider minds |
| Hazards.EndsUnlessStuck | internal/controller/metalstackcluster_controller.go:388-423 | with no run under way for cluster and deployment the deletion is under way, so that it ends, if and only if it is neither without reference, nor without its network, nor jammed, nor undecided: a cluster without network whose deployment has neither finalizer nor request for its deletion, from where it can go either way |
| Hazards.UndecidedJams | internal/controller/metalstackfirewalldeployment_controller.go:135-163 | the undecided one jams when the deployment controller comes first and adds its finalizer |
| Hazards.GuardDecides | internal/controller/metalstackcluster_controller.go:397-405 | it is under way when the guard of the cluster, which has no machines left, comes first and requests the deletion of the deployment |
| Hazards.UndecidedCanEnd | internal/controller/metalstackcluster_controller.go:397-405 | from the undecided a calm and fair path to the end exists |

## Left out

- Termination.WholeDeletion: supposes calls that go through, patches that are not lost, ids not reissued to others while recorded, fair scheduling, the template left in place, no other cluster that records our network or takes over our deployment while it is nobody's, nobody who makes cluster or deployment anew under its name, and a deployment that is not another cluster's. The node network must be recorded where a run loaded before the request, or a deployment that may hold firewalls, needs it; `Hazards.EndsUnlessStuck` says exactly when it is under way, and `Hazards.UndecidedJams` and `Hazards.UndecidedCanEnd` that the one case it leaves open can go either way.
- Termination.RequestedIsUnderway: a deployment that someone creates under the referenced name after the cluster's guard has looked is nobody's; the cluster goes without it.
- Ownership.FreeSafety: supposes that ids still recorded are not handed out again, because the lookup compares the project only; `Hazards.RecycledMachineIsFreed` shows it is needed.
- Safety.TeardownOrder: supposes that no machine object is created for a cluster that is being deleted; `Hazards.WindowRace` shows it is needed.
- Safety.ClusterAccounting: an acquired control-plane address is counted as recorded, and as left behind once the cluster is gone, because the code never frees it.
- Safety.FreesOwnFirewalls: the search and the frees behind it are one step of the protocol; `Ownership.SearchedThenFreed` says what holds when they lie apart.
- Convergence.GraceBound: supposes that a requeue comes exactly when it was asked for.
- Windows.FirewallsOutliveMachines: supposes that the cluster was being deleted when the run passed its guard; `Windows.FirewallWindow` shows it is needed.
- The calls a run makes between load and patch are one step of the protocol, except that a deletion's guard and what is behind it are two.
- The reads at the start of a run, of the object and of those it depends on, are one step as well.
- Manager, flags, metrics, TLS and everything in `cmd/main.go`: wiring.
- Watches and the functions that map events to requests: any object may be scheduled at any time; fairness is a hypothesis of termination.
- The client, patch and condition libraries: a patch carries the fields that changed and is applied whole or lost; conditions are a map from type to status and reason.
- HTTP details beyond ok, not found and other error; user data, placement tags, descriptions, messages and logs. A network request is its project, an address request the kind of the address; their names, labels, tags and the partition or network they name are not modelled.
- Conditions that the firewall deployment controller sets on the cluster: that object is never patched there.
- The key text of the managed-by tag stands in a dependency that is not part of this model.
- A machine response without an id, an allocation without its details and an address response without an address: the metal-api is assumed to send them.
- Firewall auto-update, which no controller implements, and generated deep copies.
