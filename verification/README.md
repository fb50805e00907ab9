# Reconciliation of load balancers with a cluster

A controller watches services, pods and nodes of a Kubernetes cluster and keeps the upstreams of NGINX load balancers in
step with them. This project models that controller, its NGINX adapter with the cached listing, and the rewriting of node
addresses with its configuration validators, and proves what they keep over whole runs.

`dafny verify dfyconfig.toml` checks everything.

## How it is built

| module | models |
|---|---|
| `Text`, `Sorting` | Go's number and string functions the code relies on; sorting and uniqueness of sorted lists |
| `Backends` | backends and their merging |
| `Diff`, `Convergence` | aggregation, the diff against a listing, and what a run of requests with failures does to it |
| `Nginx` | the NGINX servers, and a reference adapter that lists anew every time |
| `NginxAdapter`, `CachedRuns` | the adapter class with its cache, proved equal to the reference, call by call and over any sequence of calls |
| `Listing` | the parser of the bulk listing, and its printer |
| `Addresses`, `Rewriting`, `Validators` | prefix arithmetic on address bytes, the replacement rules, and the validators (prefixes as in section 3.1 of RFC 4632 and section 2.3 of RFC 4291) |
| `Cluster` | the informer's view, and an order-free verdict on each upstream for the event path and for the periodic path |
| `Steps`, `Controller` | the controller's step relations over its state and all servers, and the class that calls the adapters and whose methods are proved to take those steps |
| `AdapterContract` | what the adapter ensures of each server, put together to what a step does to all servers |
| `Runs`, `Reconciled`, `Remembered`, `Drained`, `Rest`, `Conservation` | runs of the whole system: wakeups and caches, convergence, remembered upstreams and the safety net, drained upstreams, when rest is reached, conservation of weight |
| `Examples` | runs from the start that come to rest in a wrong state, one for each condition of the run theorems |

A run is a sequence of states joined by steps: a change of a service, pod or node in the cluster, the handling of one
pending event, one worker run on any queued key, one periodic run on any load balancer. Every lookup and every request may
fail, differently in each step.

## What the code does not promise

Some plausible promises are false of the code. The code is modelled as it is; the lemmas give the exact condition and an input
that breaks it.

- Failed adds followed by successful removals empty an upstream, although adds come first. `Convergence.EmptiedIff` gives
  the exact condition, `Convergence.FailedAddEmpties` an input. By `Remembered.SafetyNet` a server loses
  the last backend of an upstream that must not be empty, while a service with a port targets it, only after such a failure.
- A service without a valid port that triggers the event path does nothing and reports success, although other services
  may share its upstream: `Cluster.PathsDisagreeWithoutPort`, `Remembered.SyncFreshIff`, and the run `Examples.PortlessRun`. The
  repository's own documentation lists every service, pod and node event as a trigger of a sync (`README.md:38-45`); here
  there is none until the next periodic run.
- A worker that finds a service relabelled resyncs the upstream of the last known labels and the present one. An upstream that
  the service targeted only in between is not looked at. If another service shares that upstream and has been synced meanwhile,
  the backends of the service that left stay there until the next periodic run: `Reconciled.ChangeReconcilesIff`, and the run
  `Examples.StrandedRun`. The documentation promises that such a relabelling drains the old upstream (`README.md:42`).
- If nobody shares it, that upstream is forgotten: no service and no last known entry names it, so it is drained only if orphans
  are pruned, although deleting a service is said always to drain its backends (`README.md:76`):
  `Remembered.ChangeRemembersIff`, and the run `Examples.ForgottenRun`.
- A service that leaves an upstream leaves it to any service that still targets it. If that one has no valid port its sync sends
  nothing and succeeds (`internal/controller/controller.go:216-228`, `368-370`), and the worker forgets the service that left. So its
  backends stay: for good if no service with a port is left there and orphans are not pruned
  (`internal/controller/controller.go:602`), until the next periodic run if there is one, although deleting a service is said
  always to drain its backends (`README.md:76`). `Reconciled.PortlessLeaves`; exact conditions in
  `Reconciled.DepartureFreshIff` and `Drained.DepartureDrainsIff`; the runs `Examples.DepartedRun` and `Examples.MixedRun`.

The run theorems speak of one upstream at a time and carry the conditions these findings leave, for that upstream only and only
since it was last as wanted, known or empty. `Reconciled.ConvergedSincePeriodic` says that any periodic run in which nothing fails
for the upstream makes a fresh start.

On the other hand the validator of a load balancer's list alone is enough for unambiguous rewriting; the global validator,
which compares rules only within a group, adds nothing to that (`Validators.AcceptedIsUnambiguous`,
`Validators.ValidateGlobal`).

## Model

| member | source | states |
|---|---|---|
| `Reconciled.ConvergedSince` | internal/controller/controller.go:121-201 | Main theorem, for one upstream over every run of cluster changes, event handlers, worker runs and periodic runs, interleaved in any way and with any lookups and requests failing: from any state in which the upstream is as wanted or on its way there, and provided the part of the run after it is orderly for this upstream, at rest no pod of a service with a port is on an unknown node and every server of the load balancer holds exactly what the periodic pass would ask for, which is also what the controller has recorded. Orderly asks something of two kinds of steps only: a worker runs on a service due to leave the upstream only while the services that target it all have a valid port or none has, and a change loses a service that has a port there or is leaving only if another one with a port is awaited there or another one is leaving |
| `Reconciled.ConvergedWhenQuiet` | internal/controller/controller.go:121-201 | The same from the start of a run, where every upstream is as wanted |
| `Reconciled.ConvergedSincePeriodic` | internal/controller/controller.go:514-692 | The same from any periodic run on the load balancer in which no lookup and no request failed for the upstream, whatever happened before |
| `Reconciled.PeriodicMakesFresh` | internal/controller/controller.go:514-692 | Such a periodic run leaves the upstream as wanted |
| `Reconciled.RunReconciling` | internal/controller/controller.go:121-201 | Over a part of a run that is orderly for an upstream it stays as wanted, or a service with a port that targets it is awaited, or a service that left it is still recorded under it |
| `Reconciled.RunDepartures` | internal/controller/controller.go:203-253 | In every state of every run, without proviso, a service whose last known labels name an upstream it does not target is queued or has a pending event |
| `Reconciled.ReconcilingKept` | internal/controller/controller.go:121-201 | One orderly step of any kind keeps that invariant of an upstream |
| `Reconciled.ChangeReconcilesIff` | internal/controller/controller.go:172-193 | Exact condition for a change to a service to keep it: no service with a port or leaving is lost for the upstream, or another service with a port is awaited there or another one is leaving it, or the servers hold already what is wanted without the service |
| `Examples.StrandedRun` | internal/controller/controller.go:172-193 | Concrete run in which that fails: a service is created under A, relabelled to B, which another service shares and fills, and then to D, before a worker has run on it; at rest B still holds the pod's backend, although the other service targets B. The run meets the condition on departures |
| `Reconciled.DeparturesKept` | internal/controller/controller.go:203-253 | One step of any kind keeps every departure queued or announced |
| `Reconciled.SyncMakesFresh` | internal/controller/controller.go:348-458 | A successful event-path sync of a service with a port leaves the upstream exactly as the periodic pass would have it, even if lookups could have failed |
| `Reconciled.LeaveMakesFresh` | internal/controller/controller.go:203-253 | A successful departure leaves the old upstream as the services with a port that still target it want it, whichever service was picked, if those that target it all have a port or none has, or it was so before. If none has, nothing definite is wanted; what then becomes of the backends is said by `Drained.DepartureDrainsIff` |
| `Reconciled.PortlessLeaves` | internal/controller/controller.go:216-228 | A departure may be left to any service that remains, and one without a port with readable pods does nothing and reports success, so the worker forgets the service that left and no server changes |
| `Reconciled.DepartureFreshIff` | internal/controller/controller.go:203-253 | Exact condition for every successful departure to leave the upstream as wanted, when no lookup fails: the services that remain all have a port or none has, or it was as wanted before |
| `Reconciled.VerdictCongruent` | internal/controller/controller.go:710-756 | What an upstream should hold, and whether it can be built, depends only on the services with a port sharing it, the pods they select and the nodes of those pods |
| `Conservation.ConservedWhenQuiet` | internal/controller/controller.go:710-789 | End to end, by the fields of services, pods and nodes: at rest, under the provisos of the main theorem for this upstream, if some ready pod is on a known node with an address, each server holds exactly the addresses and ports with such pods behind them, each weighing the number of its pods over all services with a port sharing the upstream, and in total the number of all of them |
| `Conservation.WeightOfEach` | internal/controller/controller.go:710-789 | What is wanted at each address and port, as the adapter names them, weighs the number of ready pods behind it, also when rewriting or cleaning sends several nodes to one address |
| `Conservation.WeightConserved` | internal/controller/controller.go:710-789 | The number of ready pods on known nodes with an address survives rewriting, merging, canonical ordering and the adapter's re-aggregation by cleaned address as the total weight |
| `Runs.NoLostWakeup` | internal/controller/controller.go:270-346 | No lost wakeup: from any change to a service, its selected pods or their nodes, and until a worker run on that service succeeds, the service is queued or a pending event will queue it, in every state of every run |
| `Runs.WokenWhenQuiet` | internal/controller/controller.go:270-346 | So once every pending event has been handled the service is on the queue |
| `Runs.AwaitedPersists` | internal/controller/controller.go:121-143 | Being awaited survives every step except a successful worker run on the service itself; a failed run requeues it |
| `Runs.PodChangeAwaited` | internal/controller/controller.go:291-309 | A pod that starts, stops or keeps matching, changes readiness or moves makes every service it is selected by, before or after, awaited, because the previous pod's services are queued too |
| `Runs.NodeChangeAwaited` | internal/controller/controller.go:311-346 | A node change makes every service with a selected pod on it awaited, even while the pod's own event is still pending |
| `Runs.ServiceChangePending` | internal/adapters/kubernetes/client.go:83-134 | Every change of a service that is in the filtered view before or after it leaves a pending event for the service, so also one that takes it out of the view |
| `Runs.CachesKept` | internal/controller/controller.go:270-321 | In every step, replaying the pending service events over the cached services gives the filtered view, and the cached pods follow the view likewise |
| `Runs.CachedWhenQuiet` | internal/controller/controller.go:270-321 | With no service and pod event pending the cached services are exactly the filtered view, none missing and none stale, and the cached pods are the view's |
| `Cluster.SelectedMatch` | internal/controller/controller.go:826-836 | The controller's label test accepts every pod the lister's selector selects, although it reads a missing label as empty |
| `Cluster.MatchLabelsIff` | internal/controller/controller.go:826-836 | The controller's label test, label by label: a non-empty selector all of whose labels the pod has with the same value, a missing one counting as empty |
| `Steps.MatchingIff` | internal/controller/controller.go:323-331 | A pod wakes exactly the services of its namespace whose selector it satisfies in that sense |
| `Cluster.ManagedIs` | internal/adapters/kubernetes/client.go:317-367 | By labels and type: a service is managed exactly with all three labels and one of the two types; it targets what its labels name, and has the port its label reads as exactly if that is between 1 and 65535, else none |
| `Remembered.RunRemembered` | internal/controller/controller.go:152-200 | No forgotten upstream: over any part of any run an upstream that is empty everywhere and has no record, or is targeted by a service in the view, with a port or without one, or named by a last known entry, stays so, provided a service leaves it only while its own last known labels name it or another service targets it |
| `Remembered.RememberedKept` | internal/controller/controller.go:203-252 | Handlers, worker runs and periodic runs keep an upstream known, or empty and without a record, without proviso: an entry goes or is replaced only after its upstream was drained or while another service, with a port or without one, targets it |
| `Remembered.ChangeRemembersIff` | internal/controller/controller.go:276-278 | Exact condition for a cluster change to keep that: the upstream is not left, or empty and without a record already, or another service targets it, or some last known entry still names it |
| `Examples.ForgottenRun` | internal/controller/controller.go:276-278 | Concrete run in which it fails: a service created under A is relabelled to B, which a periodic run fills, and deleted before a worker has run on it; at rest B holds a backend, no service exists and no last known entry is left |
| `Remembered.TargetedWhenQuiet` | internal/controller/controller.go:211-250 | At rest an upstream that some server holds backends for, or that the controller has recorded, is targeted by some service, with a port or without one. Proviso, for this upstream and since it was last known or empty: a service leaves it only while its own last known labels name it or another service targets it |
| `Drained.DrainedWhenQuiet` | internal/controller/controller.go:203-253 | At rest an upstream that some server holds backends for is targeted by a service with a port: what the services that left had there is drained, or handed over to a service that asks for backends. Provisos, for this upstream and since it was last empty or accounted for: a worker runs on a service due to leave it only if nobody else targets it or somebody with a port does, and a change loses a service with a port or leaving there only if there is another one |
| `Drained.RunHeld` | internal/controller/controller.go:145-253 | Over such a part of a run the upstream stays empty on every server, or targeted by a service with a port, or named by a last known entry of a service that left it |
| `Drained.HeldKept` | internal/controller/controller.go:145-253 | One step of any kind keeps that, under the same two provisos |
| `Drained.ChangeHeldIff` | internal/controller/controller.go:172-193 | Exact condition for a change to a service to keep it: the upstream is empty, or no service with a port or leaving is lost there, or another one is left |
| `Drained.DepartureDrainsIff` | internal/controller/controller.go:203-253 | Exact condition for every successful departure to empty the upstream or leave it to a service with a port, when no lookup fails: nobody else targets it, or somebody with a port does, or it was empty before |
| `Examples.DepartedRun` | internal/controller/controller.go:216-228 | Concrete run in which it fails: a service with a port and one without share B and the first is deleted; at rest B still holds its backend, no service with a port targets B and the last known entry is gone. The run meets both conditions of the convergence theorem |
| `Examples.MixedRun` | internal/controller/controller.go:216-228 | Concrete run in which a departure leaves the upstream stale: as before, with a third service that has a port; at rest B still holds the backend of the deleted service, while the default backend is wanted. The run meets the condition on changes |
| `Rest.WorkSucceedsIff` | internal/controller/controller.go:121-201 | Exact condition for a worker run without faults on a queued service to be able to succeed: the departure it owes, if any, has a service left that can be synced or an adapter to drain with, and the service itself has no pod of its upstream on an unknown node and, if something is to be sent, an adapter |
| `Rest.EventsHandled` | internal/controller/controller.go:270-346 | From any state the pending events can be handled one after the other until none is left |
| `Rest.RestIff` | internal/controller/controller.go:121-143 | With all events handled and the cluster unchanged, some continuation of worker runs and periodic runs, with any failures, comes to rest if and only if a run without faults on each queued service can succeed; a service that waits for a node or an adapter stays queued forever |
| `Rest.SettlesFresh` | internal/controller/controller.go:121-201 | From the end of any run, with all events handled and nobody waiting, one successful worker run for each queued service leads to rest, and there every upstream that was on its way to what is wanted, and whose services all have a port or none has, is as wanted |
| `Remembered.SafetyNet` | internal/controller/controller.go:403-441 | Where neither the global flag nor the first entry of the load balancer's name allows empty upstreams, every step leaves an upstream that a service with a port targets alone or moves its servers toward a non-empty list one of the two paths asks for, all the way unless a request for this upstream failed; so a server loses its last backend only if one did |
| `Cluster.UnnamedSkipped` | internal/controller/controller.go:348-354 | A service without a load balancer or an upstream name asks for nothing on either path, whatever lookups fail |
| `Remembered.UnsyncedIdle` | internal/controller/controller.go:514-526 | A periodic run changes nothing while the caches are not filled, or when the services cannot be listed; only the latter is an error |
| `Remembered.OrphansPruned` | internal/controller/controller.go:553-682 | A periodic run leaves an upstream that no service with a port targets alone unless the first entry of its load balancer's name has orphans pruned, empties it then on success, and drops its record |
| `Remembered.FailStatic` | internal/controller/controller.go:553-613 | After a failed lookup for any service sharing an upstream the periodic pass leaves the servers and the recorded upstream alone, whatever the list order, and the event path sends nothing: it reports an error, except for a trigger without a port whose own pods can be read, which it skips |
| `Remembered.SyncFreshIff` | internal/controller/controller.go:348-375 | Exact condition for a successful event-path sync to leave the upstream up to date: the triggering service has a port, or it was up to date already |
| `Examples.PortlessRun` | internal/controller/controller.go:348-375 | Concrete run that comes to rest with an upstream out of date: the port label of a service becomes invalid beside another service that has a port, and its sync succeeds without doing anything |
| `Cluster.PathsAgree` | internal/controller/controller.go:553-682 | Without a list error, whichever service with a port triggers it, the event path wants of an upstream exactly what the periodic path wants, through merging, default backend, empty-allowed and safety-net cases; a failed lookup makes one fail and the other preserve |
| `Cluster.PathsDisagreeWithoutPort` | internal/controller/controller.go:368-375 | A trigger without a port skips, while the periodic path skips only if no service sharing the upstream has a port |
| `Cluster.NeverPushesEmpty` | internal/controller/controller.go:403-441 | Where neither the global flag nor the first entry of the load balancer's name allows empty upstreams, neither path asks for an empty list, and an upstream of a service with a port is never left out of the desired state and so never pruned |
| `Cluster.DemandConserves` | internal/controller/controller.go:710-756 | Total weight asked for is the number of ready pods on known nodes with an address, over the services with a port |
| `Cluster.ServingIff` | internal/controller/controller.go:716-735 | By fields: a pod serves a service exactly if it is in its namespace with all labels of its non-empty selector, ready, and on a known node with an internal or an external address |
| `Cluster.NodeMissingIff` | internal/controller/controller.go:716-728 | By fields: building fails exactly if a selected ready pod is on an unknown node |
| `Cluster.ClaimKeyIs` | internal/controller/controller.go:729-747 | A pod counts at its node's internal address, or the external one if there is none, rewritten, at the port of the service |
| `Cluster.UnreadyIrrelevant` | internal/controller/controller.go:718-721 | Two views of the same nodes whose ready pods are the same ask for the same backends and fail for the same services |
| `Cluster.FindLbIs` | internal/controller/controller.go:808-815 | Of several configuration entries of one name the first counts |
| `Cluster.FlagsIff` | internal/controller/controller.go:428-432 | Empty upstreams are allowed by the global flag or the first entry of the name; orphans are pruned as that entry says |
| `Cluster.DefaultIs` | internal/controller/controller.go:403-410 | The default backend of the first entry of the name counts if it has one, even without an address, else the global one |
| `Cluster.BackendIPIs` | internal/controller/controller.go:737-740 | Addresses are rewritten only if the first entry of the name switches it on, and then by its rules |
| `Cluster.SettleIs` | internal/controller/controller.go:403-441 | By configuration fields: a list with backends is sent as it is; an empty one becomes the default backend that counts if it has an address; else the upstream is left alone exactly if neither the global flag nor the first entry of the name allows empty ones, and emptied otherwise |
| `Cluster.DemandAdds` | internal/controller/controller.go:380-401 | Merging one more service adds exactly its own claims |
| `Controller.ListServices` | internal/adapters/kubernetes/client.go:255-267 | Lists each managed service exactly once, or reports the list error |
| `Controller.GetPodsForSelector` | internal/adapters/kubernetes/client.go:226-241 | Lists exactly the selected pods of the namespace, each once; an empty selector gives none and never fails |
| `Controller.CollectBackends` | internal/controller/controller.go:716-747 | Fails exactly when a selected ready pod is on an unknown node; otherwise weighs each address by the serving pods behind it, which `Cluster.ServingIff` gives by fields |
| `Controller.Contribute` | internal/controller/controller.go:718-747 | One pod: unknown node exactly if it is ready and on a node the lister does not know, a backend of weight 1 only if it is ready and on a known one |
| `Controller.BuildUpstream` | internal/controller/controller.go:710-756 | No upstream exactly without a port or target; error exactly on a missing node; else the canonical list of the service's claims, weighing in total as many as there are ready pods on known nodes with an address |
| `Controller.LookUp` | internal/controller/controller.go:357-375 | Pod lookup and build together: error, no upstream, or the canonical list of the service's claims, exactly by the lookup conditions |
| `Controller.ApplyFallback` | internal/controller/controller.go:403-441 | What `Cluster.SettleIs` says: in particular backends are sent as they are, an empty list only if the global flag or the first entry of the name allows it, and nothing only if neither does |
| `Controller.AddToDesired` | internal/controller/controller.go:553-613 | One service folded into the desired state: preserved exactly when a lookup failed for one seen so far, else the merge of all seen so far |
| `Controller.DesiredIsVerdict` | internal/controller/controller.go:553-660 | The desired state a periodic run builds says of each upstream what the order-free verdict says, whatever order services were listed in |
| `Controller.Controller.HandleServiceEvent` | internal/controller/controller.go:270-289 | New state is the service-event step: last known labels only ever added by an Add, never overwritten by an Update |
| `Controller.Controller.HandlePodEvent` | internal/controller/controller.go:291-309 | New state is the pod-event step: services of the previous and the new pod are queued |
| `Controller.Controller.HandleNodeEvent` | internal/controller/controller.go:311-321 | New state is the node-event step: services of every pod on the node are queued |
| `Controller.Controller.EnqueueUpstreamsForPod` | internal/controller/controller.go:323-331 | The queue grows by exactly the services whose selector the pod satisfies |
| `Controller.Controller.EnqueueUpstreamsForNode` | internal/controller/controller.go:333-346 | The queue grows by exactly the services matched by some cached pod on the node |
| `Controller.Controller.SyncLoadBalancerUpstream` | internal/controller/controller.go:791-806 | Errors without touching anything if no adapter has the name; else calls it, and at every server of the load balancer only this upstream changes, exactly on success, in between on failure |
| `Controller.Controller.BackendsFor` | internal/controller/controller.go:348-441 | What one sync is going to send is the order-free event-path verdict |
| `Controller.Controller.SyncUpstreamsForService` | internal/controller/controller.go:348-458 | The state change is the one the event-path verdict prescribes |
| `Controller.Controller.MergeOthers` | internal/controller/controller.go:377-401 | Fails exactly when a lookup fails for another service sharing the upstream; else the canonical list of all their claims |
| `Controller.Controller.HandleServiceDeletion` | internal/controller/controller.go:203-253 | The upstream left is resynced from another service that targets it, or drained and forgotten when there is none |
| `Controller.Controller.SyncHandler` | internal/controller/controller.go:145-201 | The worker step: departure before arrival, last known labels replaced only after the old upstream was handled |
| `Controller.Controller.ProcessNextItem` | internal/controller/controller.go:121-143 | An item leaves the queue exactly when its run succeeds |
| `Controller.Controller.RefreshServices` | internal/controller/controller.go:527-551 | Cached services of the load balancer become the listed ones; last known entries are added, none is overwritten |
| `Controller.Controller.CollectDesired` | internal/controller/controller.go:553-613 | Every upstream name is collected as the services of that name demand, independent of order |
| `Controller.Controller.ApplyFallbacks` | internal/controller/controller.go:615-660 | Each upstream not preserved gets its default backend, an empty list, or preservation with the recorded backends |
| `Controller.Controller.DesiredState` | internal/controller/controller.go:553-660 | The desired state handed to the adapter says of each upstream what the order-free verdict says |
| `Controller.Controller.Refresh` | internal/controller/controller.go:523-681 | Caches, last known entries and recorded upstreams before the adapter is called, as the verdicts say; nothing changes on a list error |
| `Controller.Controller.SyncAllUpstreams` | internal/controller/controller.go:683-687 | Calls the adapter: at every server of the load balancer each upstream follows the desired state, exactly unless something failed for it |
| `Controller.Controller.RecordUpstreams` | internal/controller/controller.go:662-681 | Recorded upstreams follow the verdicts: pushed ones stored, skipped ones dropped, preserved ones unchanged |
| `Controller.Controller.SyncSingleLoadBalancer` | internal/controller/controller.go:514-692 | The whole periodic run is the order-free periodic step, for every upstream at every server of every load balancer |
| `AdapterContract.SyncMeetsStep` | internal/adapters/loadbalancer/nginx/nginx.go:91-248 | What `SyncUpstream` ensures of each server of one load balancer, taken over the servers of all, is the push step of the controller: one upstream moves there, nothing else anywhere |
| `AdapterContract.SyncAllMeetsStep` | internal/adapters/loadbalancer/nginx/nginx.go:252-348 | What `SyncAllUpstreams` ensures of each server of one load balancer, taken over the servers of all, is the outcome of a periodic step, upstream by upstream |
| `Backends.KeyTextInjective` | internal/controller/controller.go:760-761 | The text "IP:port" determines both parts, with colons inside the address |
| `Backends.MergeBackends` | internal/controller/controller.go:758-789 | Output strictly sorted by address and port, and its weight per key is the sum over both inputs |
| `Backends.Accumulate` | internal/controller/controller.go:760-778 | After one input the map weighs each key by what it had plus what the input adds |
| `Backends.CanonicalUnique` | internal/controller/controller.go:782-788 | A strictly sorted list is determined by its weights per key |
| `Backends.MergeCommutes` | internal/controller/controller.go:758-789 | Merging is commutative on all lists |
| `Backends.MergeAssociates` | internal/controller/controller.go:758-789 | Merging is associative on all lists |
| `Backends.MergeUnit` | internal/controller/controller.go:758-789 | The empty list is a unit, and merging with it is the identity on canonical lists |
| `Backends.MergeFlattens` | internal/controller/controller.go:758-789 | Merging list after list gives the canonical list of all of them together |
| `Backends.MergeOrderIrrelevant` | internal/controller/controller.go:758-789 | Permuting the inputs does not change the merged sequence |
| `Diff.CleanIPIff` | internal/adapters/loadbalancer/nginx/nginx.go:462-464 | The address that names a backend is what is left without white space around it and then without brackets |
| `Diff.SameIffKey` | internal/adapters/loadbalancer/nginx/nginx.go:462-472 | `sameBackend` holds exactly when `backendKey` is equal |
| `Diff.AddrIffKey` | internal/adapters/loadbalancer/nginx/nginx.go:470-480 | The server address sent to NGINX identifies the same backends as the key |
| `Diff.IssuePatches` | internal/adapters/loadbalancer/nginx/nginx.go:177-238 | The content after any prefix of a repairing plan is the old content corrected at exactly the keys whose request succeeded |
| `Diff.PlanCovers` | internal/adapters/loadbalancer/nginx/nginx.go:144-175 | The planned requests repair: one request per differing key, adds exactly for wanted keys, all adds before all removals |
| `Diff.WantedConserves` | internal/adapters/loadbalancer/nginx/nginx.go:93-107 | Aggregation keeps the total of the weights raised to at least one, keeps exactly the keys named, and every weight is at least one |
| `Diff.WantedOne` | internal/adapters/loadbalancer/nginx/nginx.go:93-107 | A single backend is wanted with its weight, raised to 1 if it is less |
| `Convergence.RunProgress` | internal/adapters/loadbalancer/nginx/nginx.go:144-238 | One request per difference; the number of differing keys drops by exactly the number of successful requests; no request exactly when the content is the desired one; all successful gives the desired one |
| `Convergence.RoundsConverge` | internal/adapters/loadbalancer/nginx/nginx.go:91-248 | Rounds that each succeed in at least one request while a difference is left reach the desired map after as many rounds as there were differences, and then nothing more is sent |
| `Convergence.RunOutcome` | internal/adapters/loadbalancer/nginx/nginx.go:177-238 | After any prefix of requests, with any failures, the keys lie between old-intersect-desired and old-union-desired and each weight is the old or the desired one |
| `Convergence.RunFrame` | internal/adapters/loadbalancer/nginx/nginx.go:91-248 | Other upstreams of the server are unchanged and the listing stays well formed |
| `Convergence.MakeBeforeBreak` | internal/adapters/loadbalancer/nginx/nginx.go:177-238 | During the adds every old backend stays, during the removals after successful adds every desired one is present, and with successful adds the upstream is never empty in between |
| `Convergence.EmptiedIff` | internal/adapters/loadbalancer/nginx/nginx.go:177-238 | Exact condition for a run to leave the upstream empty: old and desired keys are disjoint, every add failed and every removal succeeded |
| `Convergence.FailedAddEmpties` | internal/adapters/loadbalancer/nginx/nginx.go:177-238 | Concrete input: one failed add followed by one successful removal empties an upstream that was to have a backend |
| `Nginx.SyncEachEffect` | internal/adapters/loadbalancer/nginx/nginx.go:113-248 | Reference adapter without a cache: at every client synced, the desired content on success, in between on failure, other upstreams and other servers untouched |
| `Nginx.SyncManyEffect` | internal/adapters/loadbalancer/nginx/nginx.go:252-266 | The same over all desired upstreams: exact for those for which nothing failed, preserved ones untouched |
| `Nginx.PruneEachEffect` | internal/adapters/loadbalancer/nginx/nginx.go:276-345 | Pruning empties exactly the named upstreams not desired when all requests succeed, and touches no other |
| `NginxAdapter.Aggregate` | internal/adapters/loadbalancer/nginx/nginx.go:93-107 | The loop computes the aggregated desired map |
| `NginxAdapter.FindSame` | internal/adapters/loadbalancer/nginx/nginx.go:148-160 | First current backend that is the same as the desired one, or none |
| `NginxAdapter.BackendsToUpdate` | internal/adapters/loadbalancer/nginx/nginx.go:144-162 | Exactly the desired keys that are missing or weigh something else |
| `NginxAdapter.BackendsToRemove` | internal/adapters/loadbalancer/nginx/nginx.go:164-170 | Exactly the current keys that are not desired |
| `NginxAdapter.SortedKeys` | internal/adapters/loadbalancer/nginx/nginx.go:173-177 | The keys in ascending order, each once |
| `NginxAdapter.DiffRequests` | internal/adapters/loadbalancer/nginx/nginx.go:139-238 | The requests, in order, are the plan; the change flag is set exactly when there is one |
| `NginxAdapter.PruneRequests` | internal/adapters/loadbalancer/nginx/nginx.go:299-328 | Removals for exactly the backends of named upstreams that are not desired, in name order |
| `NginxAdapter.PartitionOf` | internal/adapters/loadbalancer/nginx/nginx.go:252-348 | Syncing all and then pruning yields the partition: desired, preserved, pruned, untouched |
| `NginxAdapter.Adapter.RefreshCache` | internal/adapters/loadbalancer/nginx/nginx.go:58-82 | A listing returned from the cache or from the server is the server's current content; no request inside the two seconds, one otherwise |
| `NginxAdapter.Adapter.InvalidateCache` | internal/adapters/loadbalancer/nginx/nginx.go:84-89 | If at most the listing of this server is stale, the cache is coherent again, and the next listing of the server is a fresh one |
| `NginxAdapter.Adapter.SendAll` | internal/adapters/loadbalancer/nginx/nginx.go:181-238 | Sends every planned request in order whatever fails, and reports failure exactly when one failed |
| `NginxAdapter.Adapter.SyncClient` | internal/adapters/loadbalancer/nginx/nginx.go:113-246 | One client ends as, and received what, an adapter that lists anew would have done |
| `NginxAdapter.Adapter.SyncUpstream` | internal/adapters/loadbalancer/nginx/nginx.go:91-248 | Content and requests of all servers are those of the reference adapter without a cache; error exactly when some listing or request failed; without one each client holds the aggregated desired map; the cache stays coherent |
| `NginxAdapter.Adapter.PruneClient` | internal/adapters/loadbalancer/nginx/nginx.go:279-343 | One client pruned as an adapter that lists anew would |
| `NginxAdapter.Adapter.SyncAllUpstreams` | internal/adapters/loadbalancer/nginx/nginx.go:252-348 | Refines the reference adapter; error exactly when a sync or prune failed; each desired upstream for which nothing failed equals its desired map at every client whatever failed for others; without an error preserved ones are untouched and every other named one is emptied exactly when orphans are pruned |
| `NginxAdapter.Adapter.SyncDesired` | internal/adapters/loadbalancer/nginx/nginx.go:252-274 | The first phase: preserved upstreams are skipped, every other one is synced as the reference adapter would, with the names of those that failed |
| `CachedRuns.CallAll` | internal/adapters/loadbalancer/nginx/nginx.go:58-348 | For any sequence of calls and any clock values, servers end with the content, and received the requests, of an adapter that always lists anew |
| `Listing.ParseBulkNginxBackends` | internal/adapters/loadbalancer/nginx/nginx.go:395-458 | The loop computes the reading of the lines of the response, which the rows below give for every kind of line |
| `Listing.ListingRoundTrip` | internal/adapters/loadbalancer/nginx/nginx.go:395-480 | Headers with keyword, colon or brace, server lines with any further words, and any lines that are blank, comments, other directives or servers without a readable address, with white space anywhere: parsing gives exactly those upstreams, their backends in order, with equal key and port and the weight the words give |
| `Listing.WeightIff` | internal/adapters/loadbalancer/nginx/nginx.go:425-434 | The weight of a server line is that of its first word that begins with weight=, if it is a positive number, and 1 otherwise |
| `Listing.WeightReadBack` | internal/adapters/loadbalancer/nginx/nginx.go:425-434 | A printed weight is the one its line gives |
| `Listing.SplitHostPortIff` | internal/adapters/loadbalancer/nginx/nginx.go:417-420 | An address text splits exactly if it is a host without colons and brackets, or a host in brackets, and a port |
| `Listing.HeaderNameIs` | internal/adapters/loadbalancer/nginx/nginx.go:448-454 | Any header form gives the name it was printed with |
| `Listing.Wrap32Is` | internal/adapters/loadbalancer/nginx/nginx.go:444 | The port is cut to 32 bits: in range, and congruent |
| `Listing.ServerReadBack` | internal/adapters/loadbalancer/nginx/nginx.go:413-452 | A printed server line reads back as the same backend, IPv6 in brackets, whatever further words it has and with or without its semicolon |
| `Listing.AddrTextReadBack` | internal/adapters/loadbalancer/nginx/nginx.go:474-480 | Splitting a formatted address gives back address and port, bracketed exactly when it holds a colon |
| `Listing.SameContent` | internal/adapters/loadbalancer/nginx/nginx.go:395-458 | Lists that agree in key, port and weight have the same content |
| `Text.ParsePrint` | internal/adapters/loadbalancer/nginx/nginx.go:425-446 | Parsing a printed integer gives the integer back |
| `Text.AtoiIff` | internal/adapters/loadbalancer/nginx/nginx.go:421-431 | A text reads as a number exactly if it is that number in decimal, in the 64-bit range, with an optional sign, and zeros or not |
| `Text.TrimIff` | internal/adapters/loadbalancer/nginx/nginx.go:400-452 | Trimming takes away all leading and trailing characters of the kind and nothing else |
| `Text.LessIff` | internal/adapters/loadbalancer/nginx/nginx.go:173-177 | The order of keys: a text comes before those it begins, and else the first difference decides |
| `Addresses.HasIs` | internal/util/ip_replacement.go:56-66 | Bits are counted from the most significant one |
| `Addresses.InNetBits` | internal/util/ip_replacement.go:56-66 | An address is in a network exactly when both have the same width and agree on the first mask bits |
| `Addresses.OverlapExact` | internal/util/validation.go:37-47 | The overlap test holds exactly when some address lies in both networks, for every width and mask |
| `Addresses.RewriteBytes` | internal/util/ip_replacement.go:97-109 | The two byte loops compute the rewritten address |
| `Addresses.RewrittenBits` | internal/util/ip_replacement.go:97-109 | The first mask bits are the target's, every other bit is kept |
| `Addresses.RewriteRoundTrip` | internal/util/ip_replacement.go:68-112 | Rewriting lands in the target network and rewriting back returns the address |
| `Addresses.RewriteBijective` | internal/util/ip_replacement.go:68-112 | Rewriting is injective on the source network and onto the target network |
| `Rewriting.FindGlobalIP` | internal/util/ip_replacement.go:24-32 | First matching address rule over the referenced groups |
| `Rewriting.FindGlobalNet` | internal/util/ip_replacement.go:41-51 | First matching network rule over the referenced groups |
| `Rewriting.ApplyIPReplacement` | internal/util/ip_replacement.go:10-54 | The searches compute the replacement, which `Rewriting.FirstMatchWins` gives rule by rule |
| `Rewriting.FirstMatchWins` | internal/util/ip_replacement.go:10-54 | Whatever the rules: the first address rule in force whose source is the text decides, or else the first network rule in force whose source agrees with the address on the first mask bits, or else the address stays |
| `Rewriting.HitsIff` | internal/util/ip_replacement.go:56-66 | A network rule matches exactly the texts of addresses of the same width that agree with its source on the first mask bits, for IPv4 and IPv6; an unreadable text or a mask out of range matches nothing |
| `Rewriting.NetImageIs` | internal/util/ip_replacement.go:68-112 | The image has the first mask bits of the target and the other bits of the address; of mixed families both are taken as 16 bytes; an unreadable target leaves the address |
| `Rewriting.RulesInForce` | internal/util/ip_replacement.go:23-52 | The referenced rules come in the order of the references |
| `Rewriting.GroupIPsInForce` | internal/util/ip_replacement.go:24-32 | Of the address groups exactly those of the name count, in order |
| `Rewriting.GroupNetsInForce` | internal/util/ip_replacement.go:41-51 | Of the network groups exactly those of the name count, in order |
| `Rewriting.NetsOverlapIff` | internal/util/validation.go:37-47 | The overlap test of two rules holds exactly if both sources are readable, both masks in range, and some address is in both networks |
| `Rewriting.Unambiguous` | internal/util/ip_replacement.go:10-54 | With distinct sources and disjoint networks, any rule that applies decides: its target, or, by agreement on the first mask bits, its network image, or the address itself if none applies |
| `Rewriting.OrderIrrelevant` | internal/util/ip_replacement.go:10-54 | Then the replacement depends only on the set of rules |
| `Rewriting.NetImageRoundTrip` | internal/util/ip_replacement.go:68-112 | On texts: a rewritten address is in the target network, and the rule with source and target swapped returns the address |
| `Validators.ValidateIPReplacementList` | internal/util/validation.go:50-105 | Accepts exactly the lists whose rules are well formed, whose networks share no address, whose sources are distinct and whose group names exist |
| `Validators.CheckApart` | internal/adapters/validator/loadbalancer.go:85-102 | Rejects exactly when two referenced networks, or a referenced and an own one, share an address |
| `Validators.CheckSources` | internal/adapters/validator/loadbalancer.go:104-119 | Rejects exactly when a source occurs twice over own and referenced address rules |
| `Validators.ValidateLoadBalancerList` | internal/adapters/validator/loadbalancer.go:70-121 | Accepts exactly the lists that are well formed, with no address in two of the networks in force and all sources in force distinct |
| `Validators.ValidateGlobal` | internal/adapters/validator/ip_replacement.go:14-75 | Accepts exactly the global groups with named, distinct groups whose rules are well formed, without shared addresses and distinct within each group |
| `Validators.AcceptedIsUnambiguous` | internal/adapters/validator/loadbalancer.go:70-121 | For an accepted list the replacement is the image by the one rule that applies, or the input, under any reordering of the rules and references |

## Left out

Assumptions of the model:

- Steps are atomic: each handler, worker run and periodic run is one step on one view of the cluster and one clock reading. The code reads snapshots outside its lock, so finer interleavings can write stale service entries back.
- NGINX: an add sets the weight of a backend or inserts it, a removal deletes it, a failed request changes nothing, nobody else writes to the servers, and a listing shows their current content.
- Listings have named upstreams: the fallback to the flat format (`internal/adapters/loadbalancer/nginx/nginx.go:135-138`) is modelled in `NginxAdapter.CurrentBackends` and proved not to be taken on such servers.
- The text of the listing and the servers' content are connected by `Listing.ListingRoundTrip` and `Listing.SameContent`; the adapter class takes the parsed listing.
- Keys are pairs: namespaces, names and label values contain no "/", so the joined keys of the code are injective and a work item always splits in two.
- The adapters of different load balancers share no server.
- Addresses are byte sequences with an abstract parser and printer that undo each other; rules keep the address family, and IPv4-mapped IPv6 text is excluded.
- Strings are sequences of characters and ordered by character code; the code orders by UTF-8 bytes.
- Weights are unbounded; the port of a parsed listing is truncated to 32 bits as in the code.
- Label tests read the lister's and the controller's selectors as they are; the informer's event order per kind is first in, first out, and the three kinds interleave freely.

Not modelled:

- HTTP requests, retries, TLS and the building of request URLs: a request is an upsert or a removal that may fail.
- Rate-limited delay of requeued items, the sync periods and tickers: any step may happen at any time.
- Goroutines, the semaphore and mutexes of the adapter: the servers' states are disjoint, so they are visited in sequence.
- Leader election, application lifecycle, configuration loading, certificates, metrics and logging: no effect on the modelled state.
- Pod readiness conditions and node addresses as Kubernetes reports them: pods and nodes arrive mapped.
- Error texts: an error is a failed result.
- Scalar configuration checks (log, metrics, kubernetes, leader election, names and addresses of load balancers): single branches.

Members stated weaker than one might expect:

- Reconciled.ConvergedSince: says nothing of what servers hold under the safety net or without a service with a port, because nothing definite is asked for then; `Drained.DrainedWhenQuiet` covers upstreams no service with a port targets.
- Remembered.SafetyNet: after a failed request for the upstream itself a server may lose some or, as `Convergence.EmptiedIff` says, all of its backends, because the code removes old backends even when adds have failed.
- Runs.NoLostWakeup: does not say that a queued key is ever taken, because the steps have no fairness; `Rest.RestIff` says when the queue can be worked off.
- Rest.RestIff: speaks of states without pending events, which `Rest.EventsHandled` reaches, because which services are queued afterwards depends on the order of the handlers.
