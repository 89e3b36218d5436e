# Verified model of the ELBv3 load balancer reconciler

This project models the controller in `pkg/elb` that keeps an Open Telekom Cloud load balancer in line with a
Kubernetes Service, and proves what it promises over every run, every failure point and every iteration order.

**The cloud.** `CloudState` defines the value of the cloud (load balancers, listeners, pools, members, monitors, IP groups,
EIPs) and, for each request of the API, the answer of a healthy backend (`Verdict`) and the effect (`Apply`). `Backend.Cloud`
is the same as an object whose handlers update its maps in place; every request may also fail spuriously, with a conflict, a
bad request or another error, without any effect. `faults` counts those failures that the provider cannot get past: a busy
answer to a request that it repeats is not counted, six of them in a row count once. So every statement about calls without
faults also covers a load balancer that is busy again and again.

**The controller.** `Calls`, `IpGroups`, `Pools`, `Monitors`, `Members`, `Teardown`, `Reconciler`, `Reconcile`, `Lifecycle`,
`NodeUpdate` and `Deletion` follow the methods of `pkg/elb/elb.go` and `pkg/elb/ipgroups.go` loop by loop and branch by branch.
`Annotations`, `Ranges`, `Affinity` and `Names` hold the settings and the pure computations.

**What is asked for.** `Meaning`, and the predicates ending in `Meant`, `AsAsked` or `Text` elsewhere, say once more, without
the functions that compute it, what a Service asks for: which address of a node is used, which members, persistence, probe and
whitelist a port has, which settings the annotation texts stand for, and what each request says. The computing functions are
proved to agree with these statements in both directions, and the contracts of the methods promise them directly.

**How the proofs hang together.** `Plan` says, independently of the methods, which request may be issued in which state
(`Justified`) and what a legal run of requests is (`LegalRun`). Each controller method is proved to issue justified requests
only, so that what it adds to the request log is a legal run, and to reach its own goal when it reports success. The requests
for a load balancer before a run (`Lifecycle.Opening`) and those on the load balancer and its EIPs after the last listener is
gone (`Deletion.Closing`) are characterised in the same way, so that every request of a call is accounted for. Everything about
whole runs, repeated runs and failures is then proved about such request sequences: progress, quiescence, make before break,
isolation and the round trip of a whole life. The whitelist and monitor invariants and the interleaving of several Services are
proved about request histories (`Interleave.Legal`); `Histories` shows that every run and every sequence of runs is one, and
carries the invariants over. `WholeLife`, `Outcomes`, `Settling` and `EipLife` state the main results for actual calls of the
entry points: `WholeLife.Live` shows that any sequence of calls is a life made of exactly the requests in the log.

**Two homes.** A Service is a guest on a shared load balancer (annotation `id`), or has a load balancer of its own, which comes
and goes with it. `Life.Home` covers both; a life may create and delete its own load balancer any number of times.

**Assumptions.** The cloud starts well-formed (`CloudState.WellFormed`): references match, listener keys are unique per load
balancer, monitors other than HTTP(S) have no path or method, and an IP group of the Service is bound at most once. The IP
group that a listener binds may have vanished. A Service
has distinct (protocol, port) pairs and a base name under 255 bytes, and the probe times are positive (`Service.Sound`).
Member keys are assumed unique only where a member says so (`Steps.NoDuplicates`). Non-interference, teardown and round trip
also need an undisputed home (`Life.Healthy`): for a guest, that no listener of others sits on the keys it uses; for an owner,
that every listener is on an existing load balancer, that its own listeners are exactly those on the load balancer of its name,
and that there is at most one such load balancer. The whitelist and monitor invariants need none of this.

**Where the code differs from its documentation.**
- `docs/loadbalancer.md` says that on a shared load balancer only the Service's own listeners are managed. The code looks
  listeners up by key only and adopts a foreign one on a wanted key; `Stability.UntouchedIff` says exactly when,
  `Instances.ForeignListenerAdopted` is a case.
- It says that EIPs from `eip-bandwidth` are released with the Service. If the release fails after the load balancer is gone,
  the repeated call finds nothing and returns; `EipLife.DeleteTwice` says exactly when an EIP stays behind,
  `Instances.EipLeftBehind` is a case.
- It says that EIPs from `eip-ids` are never released. The code looks at the present annotations only: once `eip-ids` has been
  replaced by `eip-bandwidth`, the listed EIPs are released with the load balancer; `EipLife.ListedEipGoneIff`,
  `Instances.UserEipReleased`.
- Source ranges with duplicates can leave a foreign range in the whitelist; `Ranges.DecisionRightIffDistinct`.
- A base name of 255 bytes defeats the ownership test; `Service.OwnershipIff`.
- IP groups leak when a call fails between create and attach, or after the listener is gone; `Steps.OrphansGrowIff`,
  `Instances.NewGroupIsOrphan`, `Instances.RemovedListenerOrphansGroup`.

**Changes to the test backend.** The in-memory API of `pkg/elb/fake_elb_test.go` is the basis of `Backend`, with these
changes: deletions of resources in use are refused, and so is binding an unknown IP group; deleting a pool clears the
listener's reference, which the test backend leaves dangling; updates ignore zero and empty fields, as the comments in `pkg/elb/elb.go` suggest; a pool's and a monitor's
back reference is a field of its own; EIPs given at creation are listed among the load balancer's EIPs.

## Model

| member | source | states |
|---|---|---|
| Backend.Cloud.HandleLoadBalancers | pkg/elb/fake_elb_test.go:108-155 | create and delete of a load balancer act as the request semantics `Apply` say; a nested public IP block creates and binds a new EIP |
| Backend.Cloud.HandleListeners | pkg/elb/fake_elb_test.go:157-202 | create, update and delete of listeners; a listener with a pool is refused with 409 |
| Backend.Cloud.HandlePools | pkg/elb/fake_elb_test.go:204-247 | create links the listener to the pool; delete is refused with 409 while a monitor or member is left and otherwise clears the link |
| Backend.Cloud.HandleMembers | pkg/elb/fake_elb_test.go:249-281 | members are created in and deleted from one pool; an unknown pool or member is 404 |
| Backend.Cloud.HandleMonitors | pkg/elb/fake_elb_test.go:283-329 | create and delete keep the reference of the pool; an update ignores zero and empty fields |
| Backend.Cloud.HandleEips | pkg/elb/fake_elb_test.go:331-350 | delete removes exactly the EIP, 404 if it is not there |
| Backend.Cloud.HandleIPGroups | pkg/elb/fake_elb_test.go:352-387 | create, update and delete of IP groups; a bound group is refused with 409 |
| Backend.Cloud.Send | pkg/elb/elb.go:873-885 | any request may fail spuriously without effect, and the answer is logged; otherwise the state changes exactly as the backend accepts it, and 404 is always genuine |
| Backend.Cloud.ListListeners | pkg/elb/elb.go:767-773 | the listeners of one load balancer, each once, in an arbitrary order |
| Backend.Cloud.ListMembers | pkg/elb/elb.go:775-781 | the members of one pool, each once, in an arbitrary order |
| Backend.Cloud.WaitForActive | pkg/elb/elb.go:855-870 | waiting changes nothing, but it can fail; success is recorded |
| Backend.FreshAfter | pkg/elb/fake_elb_test.go:67-70 | identifiers stay unused until they are given out: a create takes one, a load balancer with a new EIP two, every other request none |
| Calls.RetryOnConflict | pkg/elb/elb.go:873-885 | it adds one to six requests to the log, all the same, each but the last answered 409; it gives up on 409 only after exactly six and otherwise returns the last answer; a justified request takes effect once or not at all, and never answers 404 or 409 to the caller |
| Plan.RetriesSucceed | pkg/elb/elb.go:873-885 | a retry loop with no answer but success and fewer than six busy ones succeeds; one that ends on a busy answer has had exactly six |
| Calls.Mutate | pkg/elb/elb.go:888-893 | a retry loop on 409, and on its success a wait: success means the request took effect and the load balancer has been seen active since; an error means no effect, or an effect followed by a failed wait. It is only called when no earlier change of the run is unawaited |
| Steps.JustifiedKeepsWellFormed | pkg/elb/elb.go:294-360 | every request the provider may issue keeps references, unique listener keys, plain monitors and tidy IP group bindings |
| Steps.JustifiedIsAccepted | pkg/elb/elb.go:674-716 | in a well-formed cloud the backend never has a reason to refuse such a request: no pool with a monitor or members, no listener with a pool, no bound group is ever asked to be deleted |
| Steps.StepFrame | pkg/elb/elb.go:294-360 | such a request changes the tree of one listener only |
| Steps.OrphansGrowIff | pkg/elb/ipgroups.go:81-90 | an IP group of the Service is left unbound exactly by its creation, until it is attached, and by the deletion of the listener that binds it |
| Steps.RunKeepsUnique | pkg/elb/elb.go:502-563 | no run introduces a duplicate member key |
| Ranges.NormalizeRanges | pkg/elb/ipgroups.go:137-145 | the loop computes the normalized list |
| Ranges.NormalizedInOrder | pkg/elb/ipgroups.go:137-145 | the result holds exactly the non-blank entries, in order and with repetitions, each cut of its outer Unicode white space and nothing else |
| Ranges.TrimmedStays | pkg/elb/ipgroups.go:137-145 | entries without outer blanks stay as they are, in order |
| Ranges.TrimSpaceSkips | pkg/elb/ipgroups.go:140 | exactly the Unicode white space around a text is cut off |
| Ranges.IpListEqual | pkg/elb/ipgroups.go:155-169 | true exactly for lists of equal length in which every wanted range occurs |
| Ranges.EqualIffPermutation | pkg/elb/ipgroups.go:155-169 | for distinct ranges the test holds exactly for the permutations of them |
| Ranges.DecisionRightIffDistinct | pkg/elb/ipgroups.go:155-169 | the test is right for every current list exactly when the ranges are distinct |
| Ranges.DuplicateAdmitsForeign | pkg/elb/ipgroups.go:155-169 | with duplicates some list with a foreign range is accepted |
| IpGroups.ReconcileIPGroup | pkg/elb/ipgroups.go:17-91 | on success the listener has a group of the name made from base name, protocol and port, enabled as a white list of as many entries as there are ranges and all of them, or no such group is enabled if there are no ranges; a group is left unbound only after a fault, and then only the one made for the port; without faults it succeeds unless a foreign group is in the way, also when the bound group has vanished |
| IpGroups.CreateIPGroup | pkg/elb/ipgroups.go:81-90 | create and attach: without a fault nothing is left unbound, and after a failed attach only the group just made |
| IpGroups.RefreshIPGroup | pkg/elb/ipgroups.go:59-77 | an attached group of ours gets the ranges and is enabled again |
| IpGroups.DisableIPGroup | pkg/elb/ipgroups.go:23-52 | without ranges our whitelist is switched off; nothing at all changes when no enabled group of ours is bound |
| IpGroups.AttachIPGroup | pkg/elb/ipgroups.go:93-106 | the listener binds the group, enabled, as a white list |
| IpGroups.DeleteIPGroup | pkg/elb/ipgroups.go:110-135 | after success the group of the removed listener is no orphan of ours |
| Affinity.MinutesLeastCover | pkg/elb/elb.go:422-439 | in wrapping 32-bit arithmetic the minutes are the least of 1..60 that cover the seconds, or 60 if none does, exactly for timeouts up to 2147483588; above it is 1 |
| Affinity.MinutesMonotone | pkg/elb/elb.go:428-436 | longer timeouts never give fewer minutes in that range |
| Meaning.AffinityIsMeant | pkg/elb/elb.go:422-439 | client affinity asks for persistence by source address, with the least covering minutes if a timeout is given and 0 if not; without affinity none is asked for |
| Pools.EnsurePool | pkg/elb/elb.go:449-499 | on success the listener has a pool with the algorithm of the settings; with client affinity it persists by source address for the least minutes covering the timeout, or 0 without timeout; without affinity a new pool has no persistence and an old one keeps its own; an existing pool keeps its members and monitor |
| Pools.UpdatedOnce | pkg/elb/elb.go:461-475 | after one update no second one is called for with the same wanted values |
| Monitors.ReconcileMonitor | pkg/elb/elb.go:566-670 | on success the pool has a monitor exactly if health checks are on: UDP_CONNECT exactly for UDP ports, otherwise HTTP GET /healthz on the health check node port if traffic is local and there is one, otherwise HTTP(S) with path and method of the settings or "/" and GET if they say so, otherwise TCP, with delay, timeout and retries of the settings; nothing else has changed |
| Meaning.ProbeIsMeant | pkg/elb/elb.go:567-594 | the wanted probe is exactly this one |
| Monitors.TunedReaches | pkg/elb/elb.go:648-670 | an update in place, which cannot clear fields nor change type and port, still reaches the wanted monitor |
| Members.NodeAddressOf | pkg/elb/elb.go:813-831 | the first non-empty internal address by position, else the first non-empty external one, and none exactly if there is neither |
| Meaning.AddressIsPicked | pkg/elb/elb.go:813-831 | the address that the wanted members are computed from is that one |
| Meaning.MemberIsMeant | pkg/elb/elb.go:530-548 | a member to be created has address and name of one node, the last with that address, the node port, and the subnet of the load balancer |
| Meaning.MembersAreMeant | pkg/elb/elb.go:512-561 | a pool has the wanted keys exactly if its members are at the picked addresses of the nodes and the node port, and every node with an address has one |
| Members.WantedByAddress | pkg/elb/elb.go:512-520 | the loop computes the wanted nodes by address and node port |
| Service.WantedIffUsable | pkg/elb/elb.go:512-520 | exactly the nodes with an address are wanted, under that address and the node port |
| Service.LastNodeWins | pkg/elb/elb.go:512-520 | of several nodes with one address the last is the one wanted |
| Members.HaveByAddress | pkg/elb/elb.go:525-528 | for every key present one of its members is recorded |
| Members.AddMissing | pkg/elb/elb.go:530-548 | in any iteration order each missing wanted key is added exactly once, and nothing is removed |
| Members.PurgeStale | pkg/elb/elb.go:550-561 | in any order one recorded member of each stale key is removed, and only once every wanted key is present |
| Members.ReconcileMembers | pkg/elb/elb.go:502-563 | a successful pass adds each missing key once, with address, name and port of a node and the subnet of the load balancer, and removes one member per stale key, with exactly as many requests; it succeeds without faults whenever there is a node port and a usable node |
| Members.SyncedIsExact | pkg/elb/elb.go:502-563 | without duplicates a successful pass leaves exactly the wanted keys |
| Multiplicity.RepeatedPasses | pkg/elb/elb.go:507-562 | without assuming unique keys: after n passes a wanted key occurs max(m,1) times, a stale one max(m-n,0) times |
| Multiplicity.CleanIffEnoughPasses | pkg/elb/elb.go:507-562 | all stale members are gone after n passes exactly when no stale key occurred more than n times |
| Teardown.FindPoolForListener | pkg/elb/elb.go:749-765 | the pool of the listener as it is now; a vanished pool counts as none |
| Teardown.DeletePoolOf | pkg/elb/elb.go:680-706 | monitor, members, pool in this order; nothing outside the listener changes |
| Teardown.DeleteListener | pkg/elb/elb.go:674-716 | on success the listener is gone; no group is newly unbound on success or without faults, and otherwise at most the one the listener bound |
| Teardown.GroupIsFree | pkg/elb/elb.go:714-716 | once the listener is gone its own IP group is bound by nobody |
| Reconciler.ListenerFor | pkg/elb/elb.go:305-325 | the listener on the port key, created when there is none; an existing one gets the idle timeout when one is set |
| Reconciler.PortAccessAndPool | pkg/elb/elb.go:327-338 | source ranges are in force before a pool is created |
| Reconciler.ReconcilePort | pkg/elb/elb.go:301-345 | one round brings the port in order and touches one listener tree; it succeeds without faults exactly on the named preconditions |
| Reconcile.ListenersByKey | pkg/elb/elb.go:793-799 | every listed listener key is mapped to a listener on that key |
| Reconcile.ReconcilePorts | pkg/elb/elb.go:301-345 | later ports never undo earlier ones: after the loop all ports are in order and all other listeners are as before |
| Reconcile.RemoveCondemned | pkg/elb/elb.go:347-359 | afterwards every listed listener that had to go is gone, and no other has changed |
| Reconcile.ReconcileService | pkg/elb/elb.go:294-360 | from any well-formed cloud a successful reconciliation puts in place what the Service asks for on every port and leaves no owned listener on another key; without faults it succeeds exactly when every port has a node port, a usable node and no foreign IP group in the way of its ranges; a group is left unbound only after a fault, and at most one |
| Meaning.ConvergedIsInPlace | pkg/elb/elb.go:294-360 | the state that the reconciliation converges to is exactly the one in which every port has a listener with idle timeout, whitelist, algorithm, persistence, members and probe as asked for |
| Meaning.JustifiedIsMeant | pkg/elb/elb.go:294-360 | every request that may be issued says what the Service asks for, for one of its ports, and is only made when something differs; only condemned listeners are taken down |
| Reconciler.FeasibleIsMeant | pkg/elb/elb.go:502-524 | what stops a port is a missing node port, the lack of a node with an address, or a foreign group on its key while there are ranges, and nothing else |
| Reconcile.WhitelistIsExact | pkg/elb/ipgroups.go:54-90 | in the wanted state with distinct ranges every port has an enabled white list that is a permutation of them |
| Stability.BystandersStay | pkg/elb/elb.go:203-358 | no run, deletions included, changes a listener without our prefix, its pool, members, monitor or group, if it is on another load balancer, or on ours and on none of our keys; only the deletion of an unshared load balancer takes the listeners on it along |
| Stability.Quiescence | pkg/elb/elb.go:314-325 | a legal run that starts in the wanted state consists of idle-timeout updates and changes nothing |
| Settling.QuietEnsure | pkg/elb/elb.go:104-154 | a call of `EnsureLoadBalancer` in the wanted state, whatever fails in it, leaves the cloud as it is, and every request it adds to the log is an idle-timeout update |
| Stability.UntouchedIff | pkg/elb/elb.go:299-306 | a listener of another owner survives a successful reconciliation unchanged exactly when it is on no wanted key or already was what the Service wants; otherwise it is adopted |
| Rollover.MakeBeforeBreak | pkg/elb/elb.go:530-561 | in every state of every run: wanted members present at the start stay, nothing is missing before all wanted ones are there, a non-empty pool never runs empty |
| Rollover.UpdateChangesMembersOnly | pkg/elb/elb.go:157-199 | an update run changes pool members and nothing else |
| Rollover.RolledToTarget | pkg/elb/elb.go:530-561 | a pool that ends with the wanted keys holds its old wanted members and one new member per missing key |
| Rollover.UpdateAgreesWithEnsure | pkg/elb/elb.go:157-199 | after a settled reconciliation, a complete node update and a complete reconciliation for the new nodes give equal clouds up to member identifiers |
| Progress.StepProgress | pkg/elb/elb.go:294-360 | within a run each listener, pool, member or monitor request strictly lowers the distance to the wanted state; idle-timeout and IP group requests never raise it |
| Progress.BoundedMutations | pkg/elb/elb.go:294-360 | any linked legal requests include at most the initial distance of such requests |
| Settling.Persist | pkg/elb/elb.go:104-199 | any number of reconciliations and node updates for one order, whatever fails: the listener, pool, member and monitor requests they add to the log, plus the distance left at the end, are at most the distance at the start, also if the load balancer is created on the way |
| Settling.Settle | pkg/elb/elb.go:104-154 | in an undisputed home a reconciliation of a servable order cannot fail without a fault, and a successful one has put in place what the order asks for |
| Settling.LifeKeepsClear | pkg/elb/ipgroups.go:59-106 | over a whole life no listener of the Service is ever bound to an IP group that is not named for its key, and no duplicate member appears |
| Settling.LiveAndSettle | pkg/elb/elb.go:104-258 | retry convergence: after any sequence of calls, whatever failed in them, one reconciliation without faults puts in place what its order asks for |
| Progress.DistanceZero | pkg/elb/elb.go:294-360 | the wanted state is distance zero together with whitelist and idle timeout in place |
| Progress.ProbeCost | pkg/elb/elb.go:608-670 | a monitor of the wrong type costs two requests, an absent or mistuned one a single request |
| Safety.WhitelistBeforeBackends | pkg/elb/elb.go:327-338 | over any legal history with fixed source ranges: a listener made since the start has no pool without an enabled white list of exactly those ranges, whatever fails |
| Safety.MonitorsStayProper | pkg/elb/elb.go:566-670 | over any legal history each monitor of ours has the shape of its type: TCP and UDP_CONNECT bare, HTTP(S) with a rooted path and a method, a port only with HTTP GET /healthz |
| Safety.ForeignGroupsStay | pkg/elb/ipgroups.go:37-62 | over any legal history an IP group without our prefix is never changed or deleted |
| Histories.RunIsHistory | pkg/elb/elb.go:294-360 | every run of an entry point is a legal history that leads to the same state |
| Histories.LifeIsHistory | pkg/elb/elb.go:104-258 | any sequence of runs, deletions included, is one legal history of what hangs off the load balancers, while load balancers and EIPs come and go between them |
| Histories.SteadyLifeIsHistory | pkg/elb/elb.go:104-258 | as long as no load balancer comes or goes, it is a legal history of the whole cloud |
| Histories.RunIsSheltered | pkg/elb/elb.go:327-338 | whitelist before backends in every state of every run |
| Histories.LifeIsSheltered | pkg/elb/elb.go:327-338 | the same over a whole life with fixed source ranges, on any load balancers, from any well-formed cloud |
| Histories.RunKeepsMonitorsProper | pkg/elb/elb.go:566-670 | monitors keep the shape of their type in every state of every run |
| Histories.LifeKeepsMonitorsProper | pkg/elb/elb.go:566-670 | the same over a whole life, on any load balancers, from any well-formed cloud |
| Histories.RunKeepsForeignGroups | pkg/elb/ipgroups.go:37-62 | no run changes an IP group of another owner |
| WholeLife.Live | pkg/elb/elb.go:104-258 | any sequence of calls of the entry points, from any well-formed cloud and whatever fails: the requests it adds to the log are exactly those of a life of legal runs and requests on the own load balancer, each says what its order asks for, and at most one IP group per failed call is left unbound |
| WholeLife.RecordedIsAskedFor | pkg/elb/elb.go:104-288 | every request of an actual call says what the order asks for: base name, settings, ports and nodes are those of the order, the load balancer is the intended one and the subnet its own |
| Outcomes.LiveSafely | pkg/elb/elb.go:104-258 | for actual calls of the entry points with faults and refusals: the whitelist and monitor invariants from any well-formed cloud, and in an undisputed home, shared or own, that nothing of others changes |
| Isolation.JustifiedIsOwn | pkg/elb/elb.go:347-359 | every request of a Service that keeps to its keys, or deletes a load balancer it has for itself, creates and touches only resources with its prefix |
| Isolation.OwnOpKeepsSlice | pkg/elb/elb.go:228-231 | such a request leaves everything without the prefix as it was |
| Solo.OwnOpCommutes | pkg/elb/elb.go:294-360 | acting on the whole cloud and then looking at the own slice is the same as acting on the slice |
| Solo.JustifiedAlone | pkg/elb/elb.go:294-360 | what may be issued on the whole cloud may be issued on the slice alone |
| Interleave.Interleaving | pkg/elb/elb.go:294-360 | any number of Services with disjoint keys: an interleaving is legal exactly when each Service's own requests are legal alone, and then every Service ends with the view it has when run alone |
| Histories.LivesInterleave | pkg/elb/elb.go:104-258 | the runs that Services make alone on their own views can be interleaved in any order: every request stays justified and accepted, and each Service ends with the view of its own runs |
| Interleave.ReadsDependOnView | pkg/elb/elb.go:294-300 | what a Service reads for its keys and listeners is a function of its own view |
| Interleave.RequestsDependOnView | pkg/elb/elb.go:294-360 | with the same view a Service may issue the same requests, with the same effect on the view, whatever the others did |
| Interleave.ConvergedAlone | pkg/elb/elb.go:294-360 | whether a Service has reached its wanted state can be read off its own view |
| Life.LifeKeepsRest | pkg/elb/elb.go:203-258 | over a whole life in an undisputed home, shared or own, failures included, nothing without the prefix changes but load balancers of the Service and EIPs, and the home stays undisputed |
| Life.LifeRestores | pkg/elb/elb.go:674-716 | however many runs failed before, once the Service has no listener on the shared load balancer, or no load balancer of its own, no listener, pool, member or monitor of it is left; only unbound IP groups can remain |
| Life.RunLeaksByCalls | pkg/elb/ipgroups.go:81-90 | every group a run leaves unbound was made in it, or bound by a listener deleted in it, by a call that took effect |
| Life.LeftoversAccounted | pkg/elb/elb.go:708-716 | in any sequence of runs, on any load balancers, every group newly left unbound has that origin in a run that was not clean |
| Life.LeftoversCounted | pkg/elb/elb.go:674-716 | if no run leaves more than one group unbound, at most one is left for each run that was not clean |
| Life.RoundTrip | pkg/elb/elb.go:203-258 | if no run left a group unbound, refused ones included, the cloud at the end equals the cloud at the start, up to EIPs of the Service's own load balancers |
| Outcomes.LiveAndDie | pkg/elb/elb.go:104-288 | any calls of the entry points and a final deletion, on a shared load balancer or on own ones, with changing ports, nodes and ranges: whatever failed before, a successful deletion leaves nothing of the Service but unbound IP groups and nothing of others changed; if there was nothing of the Service before, at most one such group per failed call, each made or unbound in a failed call, and, with own load balancers, no change of EIPs if no order asks for one, and otherwise all EIPs of before and at most one new one for each load balancer that went: exactly one if they are kept, none but for failed calls if they are released; without faults the deletion succeeds and the cloud is exactly as before, even if calls were refused half-way |
| Names.LoadBalancerNameInjective | pkg/elb/elb.go:77-80 | up to 255 bytes the name determines namespace and Service name, for underscore-free ones in one cluster |
| Names.LoadBalancerNameSpelled | pkg/elb/elb.go:77-80 | the name is "kube_service_", cluster, namespace and Service name with underscores between them, cut to 255 |
| Names.OwnershipByName | pkg/elb/elb.go:228-231 | for base names under 255 bytes the prefix test accepts a Service's own resources and those of no other Service |
| Names.ServicesApart | pkg/elb/elb.go:77-80 | no name carries the prefixes of two Services |
| Names.ListenerKeyInjective | pkg/elb/elb.go:785-791 | the printed "proto/port" determines protocol and port |
| Names.MemberKeyInjective | pkg/elb/elb.go:520-528 | the printed "address:port" determines address and port, also for IPv6 |
| Service.OwnershipIff | pkg/elb/elb.go:402-408 | a created resource, even when its name is cut, passes the prefix test of its own Service exactly when the base name is under 255 bytes |
| Annotations.SettingsForService | pkg/elb/annotations.go:102-203 | every field says what its own annotation says if that is set, and its own default otherwise: texts as they are, numbers and lists as written, booleans by the six accepted spellings of either value, protocol and method in capitals; refused exactly if no settings in range and without contradiction do |
| Annotations.MergedIsMeant | pkg/elb/annotations.go:102-203 | these settings are unique, and are the merged ones the other members speak of |
| Annotations.MergedFacts | pkg/elb/annotations.go:145-203 | EIP ids and EIP bandwidth exclude each other, the algorithm is set, the idle timeout is not negative, probe protocol, path and method are in their domains |
| Annotations.SplitTrim | pkg/elb/annotations.go:205-213 | the loop returns the trimmed non-empty parts between commas |
| Annotations.SplitTrimReadsJoin | pkg/elb/annotations.go:205-213 | joining proper items with commas and splitting again gives them back |
| Annotations.AtoiReadsDecimal | pkg/elb/annotations.go:227-237 | every printed 64-bit number is read back, none outside the range is accepted |
| Annotations.AtoiIff | pkg/elb/annotations.go:227-237 | the texts read as a number are exactly its decimal form with an optional sign and leading zeros, within 64 bits |
| Annotations.JoinedParts | pkg/elb/annotations.go:205-213 | the parts of a text contain no comma and joined with commas give it back |
| Annotations.KeepIffSaid | pkg/elb/annotations.go:155-157 | an EIP is to be kept exactly if the annotation has one of the texts that mean true |
| Lifecycle.FindLoadBalancer | pkg/elb/elb.go:721-747 | the load balancer that the annotation names, or if it names none, one with the Service's name; none only if there is none |
| Lifecycle.CreateLoadBalancer | pkg/elb/elb.go:362-400 | refused without subnet or zones; otherwise one new load balancer with the name and subnet of the order, the listed EIPs in order, and a new EIP behind them exactly when a bandwidth is set; one request at most |
| Lifecycle.ValidatePorts | pkg/elb/elb.go:801-811 | accepts exactly TCP and UDP ports |
| Lifecycle.EnsureLoadBalancer | pkg/elb/elb.go:104-154 | the requests it adds to the log are those for a missing load balancer and then one legal run for the order's settings, ports and nodes and the load balancer's subnet, and none for a refused order; a success puts in place what the order asks for on the load balancer found or created, leaves no change unawaited and returns that load balancer as it is then; no group is newly unbound on success or without faults, and never more than one; without faults it succeeds when every port is feasible |
| Lifecycle.Check | pkg/elb/elb.go:104-120 | accepts exactly orders with ports, all TCP or UDP, with nodes, and with annotations that mean something |
| NodeUpdate.UpdateLoadBalancer | pkg/elb/elb.go:157-199 | the requests it adds to the log are one legal run for the order, which changes members only, whatever fails; a success leaves in the pool of every port exactly the members the nodes give rise to; without faults it succeeds exactly when every port has a node port, a listener, a pool and a usable node |
| NodeUpdate.SettledPortIsServed | pkg/elb/elb.go:157-199 | after a settled reconciliation only a missing node port or node set can stop an update |
| Deletion.EnsureLoadBalancerDeleted | pkg/elb/elb.go:203-258 | the requests it adds to the log are one legal run over the listeners and then, once all of them are gone from an unshared load balancer, that load balancer and its EIPs to release, and nothing else; on success a load balancer named by annotation has no listener of the Service left and keeps its EIPs, one of its own is gone with all its listeners, and exactly its EIPs are gone if a bandwidth is set and they are not kept; no group is newly unbound on success or without faults, and never more than one; without faults it succeeds |
| Deletion.RetryFinal | pkg/elb/elb.go:873-885 | one to six requests, all the same, repeated only after a busy answer; it gives up on busy answers only after exactly six |
| Deletion.ReleaseEips | pkg/elb/elb.go:261-288 | only the listed EIPs are asked for, after the load balancer is gone; on success exactly they are gone; on failure no other EIP is |
| Deletion.ReleaseEip | pkg/elb/elb.go:270-284 | 400 and 409 are retried, up to six requests; 404 counts as released |
| Steps.RunSparesBalancers | pkg/elb/elb.go:203-258 | no run over listeners touches a load balancer or an EIP |
| EipBooks.LifeKeepsBooks | pkg/elb/elb.go:222-288 | over any life on own load balancers with a new EIP each, the EIPs are those from before, one for each load balancer that went without its EIP being released, and the one of the present load balancer |
| EipBooks.LifeSparesEips | pkg/elb/elb.go:222-288 | over any life without orders for a new EIP no EIP comes or goes |
| EipBooks.KeptLife | pkg/elb/elb.go:250-252 | while the annotation `eip-keep` has one of the texts that mean true, every load balancer that goes leaves its EIP behind |
| EipLife.ServeThenDelete | pkg/elb/elb.go:104-288 | from no own load balancer, any reconciliations and node updates with unchanged annotations, whatever fails in them, and a successful deletion leave the EIP inventory as it was, or one larger exactly if a load balancer was created in between and its new EIP is to be kept; without faults in it the deletion succeeds |
| EipLife.ReleasedIsOurs | pkg/elb/annotations.go:145-157 | as long as the annotations are those at creation, an EIP that will be released was made by the provider |
| EipLife.Delete | pkg/elb/elb.go:250-256 | after a successful deletion an EIP is gone exactly when the load balancer had it and the order at deletion releases EIPs |
| EipLife.ListedEipGoneIff | pkg/elb/elb.go:250-256 | an EIP listed by the user at creation is gone exactly when the order at deletion releases EIPs, which takes changed annotations |
| EipLife.DeleteTwice | pkg/elb/elb.go:215-256 | a failed deletion repeated with success: the EIPs are released exactly when the first call left the load balancer in place or had released them itself |
| Instances.ForeignListenerAdopted | pkg/elb/elb.go:299-306 | a legal run changes a foreign listener on a wanted key |
| Instances.NewGroupIsOrphan | pkg/elb/ipgroups.go:81-90 | a justified create in a well-formed cloud leaves a group unbound |
| Instances.RemovedListenerOrphansGroup | pkg/elb/elb.go:708-716 | a justified listener deletion in a well-formed cloud leaves its group unbound |
| Instances.EipLeftBehind | pkg/elb/elb.go:218-288 | seven requests that a deletion may make: the load balancer goes, six releases of its EIP fail, and a repeated deletion finds nothing |
| Instances.UserEipReleased | pkg/elb/elb.go:250-256 | an EIP from `eip-ids` is released after the annotation is changed to `eip-bandwidth` |

## Left out

- Authentication, token refresh, client construction, configuration files and provider registration (`pkg/identity`, `pkg/config`): plumbing without decisions of its own.
- HTTP, JSON, paging, logging and error texts: an error is one of 404, 409, 400 or other, and only its kind matters to the code.
- Real time: backoff durations and polling intervals; what remains is the bound of six attempts and that waiting may fail.
- A reply that is lost after the request took effect: a failed request has no effect; only the wait that follows a request may fail after its effect.
- Edits of a Service's own resources by anybody else while one of its calls is under way; several Services acting at once are covered by `Interleave`.
- The backend filling in a persistence timeout or monitor field that a request omitted: quiescence with session affinity therefore means affinity with a timeout.
- `GetLoadBalancer` and `lbStatus`, and in the create request the VPC, flavor, EIP type, bandwidth size, `loadBalancerIP` and descriptions: copied to or from the API without a decision.
- Negative answers of the backend for values it does not like (unknown subnets, invalid ranges): they appear as spurious failures; only EIP ids that are not known are refused when a load balancer is created.
- Resource identifiers are numbers; `Backend.Cloud.known` says which annotation text names which identifier.
- Listener and member keys are pairs instead of printed strings in the reconciler; `Names.ListenerKeyInjective` and `Names.MemberKeyInjective` show that this loses nothing.
- Strings are sequences of Unicode characters, while Go works on UTF-8 bytes: name lengths agree for ASCII names, the only ones Kubernetes allows for namespaces, Services and nodes, and annotation texts that are no valid UTF-8 are not covered.
- Letters that upper-casing maps beyond ASCII stay as they are in `Annotations.Upper`: such a text is refused either way.
- Two Services with load balancers of their own acting at the same time: `Interleave` covers guests of one cloud whose load balancers stay.
- Names.LoadBalancerNameInjective: is stated for uncut names, since two names of more than 255 bytes with a common beginning are cut to the same one.
- Rollover.UpdateAgreesWithEnsure: compares clouds up to the identifiers of members, because the two calls may add members in different orders.
- Safety.WhitelistBeforeBackends: speaks of listeners made during the run; a listener that existed before may already have members when a whitelist is first asked for.
