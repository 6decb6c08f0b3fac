# Verification of the private-network extension controller

The private-network extension gives every shoot namespace one OpenStack load balancer named
`private_network-<namespace>`, restricts its listeners to a list of allowed CIDRs, attaches or detaches a
floating IP, and stores the resulting addresses in the status of an `Extension` resource. This project
models that controller in Dafny and proves what it is for.

## How the model is built

- `Text`, `Cidr`, `IpSet`: strings, IPv4 blocks in the prefix notation of section 3.1 of RFC 4632 (masking,
  printing, parsing, and the set of addresses a block admits), and the mutable CIDR set `IPNet` with the
  choice of source ranges.
- `SubnetFilter`: the tag specification language of the subnet filter, its local evaluation, and its
  translation into the four tag options of a list query.
- `Backoff`, `Waiting`: the exponential backoff and the two polling loops.
- `CloudModel`: the state of the cloud (load balancers with listeners, floating IPs, stored records), every
  API call as an event that carries its answer, and what each call may do (`Effect`). A write that reports an
  error may still have taken effect. `Drift` is what the cloud does by itself to statuses.
- `Program`: the control flow of Reconcile and Delete at the granularity of API calls, as an automaton
  (`Permits` says which calls may come next, `Next` where an answer leads), and the health check.
- `Interleaving`, `FloatingRuns`, `AllowListRuns`: any number of namespaces, each with at most one run at a
  time that may stop or crash anywhere, interleaved with environment steps. Invariants over all such runs.
- `Service`: the cloud as a mutable object. Each API call is a method that answers nondeterministically
  within `Effect`, advances a ghost program counter along `Program.Next`, and appends itself with its answer
  to a ghost log. Between two calls anything may happen, unless the object is `alone` (then only statuses
  drift) or also `cooperative` (then every possible call succeeds, a pending status settles after at most 11
  polls, and the clock stays within a given span).
- `Balancers`, `Attach`, `Actuator`: the imperative controller code over that object. The object's invariant
  says that its log is a path of `Program`; Reconcile and Delete state it, so the theorems about paths and
  runs (`HealthAgreesWithReconcile`, `DeleteFollowsObservation` and those of `Interleaving`) speak about
  the calls that this code makes.
- `Necessity`: concrete runs that go wrong once an assumption of the theorems is dropped.

## Main results

1. In every interleaving at most one load balancer of a managed name is neither deleted nor being deleted,
   so a look-up by name never reports several results (`UniqueInEveryRun`, `NeverMultipleResults`). It
   depends on a deletion never turning back into a live load balancer (`RevivalBreaksUniqueness`).
2. After a successful Reconcile the stored record describes that load balancer and the address bound to its
   port, in every interleaving in which no two workers go through the free floating IPs of one project at
   the same time (`RecordsAreSound`). Two workers that do can break this (`RaceBreaksRecords`). Others may
   create, edit and delete load balancers of their own, and make, bind and forward floating IPs anywhere
   but on the ports of the controller's live load balancers. In a given state some next call of a worker
   can then touch a foreign floating IP exactly when the worker is about to bind an address that has been
   taken since it was listed, and the service would let it (`ForeignTouchedIff`, `ForeignFipsUntouched`,
   `TakeoverTouchesForeign`). One run adds at most one floating IP (`AtMostOneAdded`).
3. After a successful Reconcile every listener admits exactly the configured addresses, in every
   interleaving (`AllowListInEveryRun`) and end to end through the code (`Actuator.Reconcile`).
4. On a cooperative cloud three calls of Reconcile suffice (`ReconcileUntilSuccess`) unless there is an
   ACTIVE load balancer that is unhealthy and older than 15 minutes, or whose listeners share a name; from
   there no number of calls succeeds, because nothing deletes it (`ReconcileInVain`). The two cases
   exclude each other and leave nothing out when the clock stands still (`ReadyOrStuck`). What else
   readiness asks for holds in every state of every run (`ReachedIsReady`).
5. Normalising, storing, listing and parsing CIDRs keeps the admitted addresses; the round trip of a set
   holds exactly when no stored block has host bits (`RoundTripIffMasked`, `Reparse`).
6. Filtering by tags on the server agrees with filtering locally exactly when `PushDownSafe` holds, under
   either reading of the negated options (`PushDownIff`), and so does the whole listing unless no name
   passes the name pattern (`PushDownExact`).
7. A Delete that is shown nothing live succeeds with that one call; on a cooperative cloud it succeeds
   exactly when nothing of the name is live or the only one that is can be deleted (`Actuator.Delete`).
   A run that succeeds had all its calls succeed (`ErrorsAreReported`).
8. The verdict of the health check is true of the cloud, in both directions (`HealthIsTrue`), and agrees with
   what Reconcile does (`HealthAgreesWithReconcile`, `HealthyNeverAges`, `UnhealthyMustBeYoung`).
9. The wait loops end with the first decisive answer that the API gave them, after the geometric sum of
   pauses (`WaitActiveAndGetLoadBalancer`, `WaitLoadbalancerDeleted`, `DecidedIsFirstDecisive`).

## Where the code and its comments or intentions part

- pkg/helper/openstack.go:170 and 176 take `NotTagsAny` to mean "some tag is missing" and `NotTags` "no tag is
  present". The Neutron API documents them the other way round. Under the first reading the push-down is
  right unless the tag list is one empty tag; under the second, negated specifications agree only when all
  listed tags are the same.
- A specification such as `&` or `!` lists one empty tag; the query option is then empty and not sent at all,
  while the local matcher still looks for the empty tag.
- `Insert` accepts a block with host bits, which does not survive being listed and parsed again
  (`UnmaskedBreaksRoundTrip`).
- An empty VIP port is left out of the floating IP query, so the look-up by port then returns every floating
  IP (`PortFilterExact`). A private cluster may then detach a foreign one, and a public one may store a
  foreign address and report success (`EmptyPortDetachesForeign`, `EmptyPortServesForeign`).
- The loop over free floating IPs does not stop after a success: a second suitable one makes the call fail
  with the first one bound. The next run picks that one up (`BindFree`, `ReconcileUntilSuccess`).
- A private cluster detaches only the first floating IP listed for the port; the port ends up free exactly
  when it carried at most one (`AttachFloatingIP`).
- pkg/helper/openstack.go:835 compares CIDR lists with their order although the order of `StringSlice` is
  undefined, so an update may be sent when the sets agree. Only the resulting set is claimed.
- The candidates are read once (pkg/helper/openstack.go:664) and bound later without reading them again. An
  address that somebody else took in between is taken over (`TakeoverTouchesForeign`).
- The status patch sends only the fields that differ from the controller's own copy
  (pkg/controller/lifecycle/actuator.go:211-214). With
  a stale copy the server may keep an old field; `MergeStoresIff` gives the exact condition.
- An ACTIVE load balancer that stays unhealthy for 15 minutes fails every later Reconcile, because only ERROR
  as provisioning status leads to a deletion (`ReconcileInVain`).
- pkg/helper/openstack.go:895 and 901 return the not-found error of the constants package, which is not the
  one of the helper package that Reconcile compares with. Inside CheckLoadBalancer both are just errors.

## Model

| member | source | states |
|---|---|---|
| Text.SplitJoin | pkg/helper/openstack.go:241 | splitting joined parts at the separator gives back the parts when none contains it |
| Text.TrimIsSlice | pkg/helper/ipnet.go:31 | trimming takes a slice, and all that it drops is white space |
| Text.TrimPadded | pkg/helper/ipnet.go:31 | trimming takes off the white space around a trimmed text, and nothing else |
| Text.ValueDecimal | pkg/helper/ipnet.go:36 | decimal printing is read back as the same number, without superfluous zeros |
| Cidr.ParseWritten | pkg/helper/ipnet.go:32 | whatever parses is an address below 2^32 with a prefix length of at most 32 |
| Cidr.PrintRoundTrip | pkg/helper/ipnet.go:32-36 | parsing a printed block gives back exactly that block |
| Cidr.ParsesExactly | pkg/helper/ipnet.go:32 | exactly a dotted quad without superfluous zeros, a slash and the digits of a length of at most 32 parse, and as that block |
| Cidr.PrintInjective | pkg/helper/ipnet.go:36-37 | two blocks with the same canonical text are the same block |
| Cidr.NetworkAdmitsSame | pkg/helper/ipnet.go:32 | masking keeps the admitted addresses and is idempotent |
| Cidr.HighIsInterval | pkg/helper/ipnet.go:32 | agreeing with an aligned number on all but h bits is lying in an interval of 2^h numbers |
| Cidr.IntervalOf | pkg/helper/ipnet.go:32 | a masked block admits exactly the 2^(32-prefix) addresses from its own on, all below 2^32 |
| Cidr.SameAddressesSameBlock | pkg/helper/ipnet.go:36-37 | masked blocks admit the same addresses iff they are equal |
| Cidr.SameKeySameAddresses | pkg/helper/ipnet.go:31-37 | two specifications land on the same key iff they admit the same addresses |
| IpSet.ValuesByKey | pkg/helper/ipnet.go:43-60 | with canonical keys, a map holds a block iff it holds the block's text as a key |
| IpSet.IPNet.Insert | pkg/helper/ipnet.go:43-47 | the blocks become the old ones together with the items, keys stay canonical |
| IpSet.IPNet.Delete | pkg/helper/ipnet.go:50-54 | the blocks become the old ones without the items, keys stay canonical |
| IpSet.HasIsMembership | pkg/helper/ipnet.go:57-60 | the look-up by text is membership of the block itself |
| IpSet.IPNet.HasAll | pkg/helper/ipnet.go:63-70 | true iff all items are blocks of the set |
| IpSet.IPNet.Difference | pkg/helper/ipnet.go:78-88 | a fresh set with exactly the blocks that are not in the other |
| IpSet.IPNet.StringSlice | pkg/helper/ipnet.go:92-98 | every key exactly once, in whatever order |
| IpSet.IPNet.IsSuperset | pkg/helper/ipnet.go:101-109 | true iff the other's blocks (equivalently its keys) are contained |
| IpSet.IPNet.Equal | pkg/helper/ipnet.go:114-116 | comparing sizes and testing for a superset decides equality of the block sets |
| IpSet.SubsetOfSameSize | pkg/helper/ipnet.go:115 | a subset of equal size is the whole set |
| IpSet.RoundTripIffMasked | pkg/helper/ipnet.go:28-40 | all keys of a canonical set parse again, and to the same set iff no block has host bits |
| IpSet.UnmaskedBreaksRoundTrip | pkg/helper/ipnet.go:43-47 | the block 0.0.0.1/31 comes back as 0.0.0.0/31 |
| IpSet.WrittenPadded | pkg/helper/ipnet.go:31-32 | a printed block with white space around it is read as that block |
| IpSet.WrittenExactly | pkg/helper/ipnet.go:31-35 | exactly the blocks as written, with white space around them, are accepted |
| IpSet.Reparse | pkg/helper/ipnet.go:28-116 | StringSlice, ParseIPNets and Equal in sequence: no error, and equal iff no stored block has host bits |
| IpSet.NetworksAdmitSame | pkg/helper/ipnet.go:28-40 | the union of the networks is the union of the addresses the specifications admit |
| IpSet.NetworksStored | pkg/helper/ipnet.go:34-37 | each specification is found under its key and each key stems from a specification |
| IpSet.ParseIPNets | pkg/helper/ipnet.go:28-40 | succeeds iff every specification is a block; then holds exactly their networks, else names a bad one |
| IpSet.DefaultAdmitsAll | pkg/constants/const.go:33 | 0.0.0.0/0 admits every IPv4 address |
| IpSet.KeysAdmitSame | pkg/helper/ipnet.go:92-98 | the listed keys admit what the stored blocks admit |
| IpSet.RequestedMeansWanted | pkg/helper/config.go:131-136 | the strings that are parsed admit the configured ranges plus the workers, or everybody when none are configured |
| IpSet.GetLoadBalancerSourceRanges | pkg/helper/config.go:125-144 | fails iff some string is malformed; else a non-empty set whose blocks and keys admit exactly the wanted addresses |
| SubnetFilter.TagList | pkg/helper/openstack.go:231-245 | the in-place trimming of the split list yields the parsed specification |
| SubnetFilter.SubnetTagMatch | pkg/helper/openstack.go:102-130 | the early-exit loops return not XOR (all ? every listed tag present : some listed tag present) |
| SubnetFilter.TagSpecRoundTrip | pkg/helper/openstack.go:231-245 | a printed specification of clean tags reads back as itself iff its first tag is not taken for a missing prefix |
| SubnetFilter.PaddedTagsRead | pkg/helper/openstack.go:231-245 | white space around the tags of a list does not matter |
| SubnetFilter.TagsSurviveJoin | pkg/helper/openstack.go:166-167 | every parsed list is comma-free and trimmed and survives the join that the query uses |
| SubnetFilter.TweakListOpts | pkg/helper/openstack.go:164-182 | exactly one option is written, chosen by the two flags; nothing without tags |
| SubnetFilter.PushDownIff | pkg/helper/openstack.go:164-182 | server and local tag filter accept the same subnets iff the push-down is safe, for both readings of the negated options |
| SubnetFilter.PushDownWitness | pkg/helper/openstack.go:166-181 | where it is unsafe, a subnet of any given name that the two judge differently |
| SubnetFilter.FilterTwice | pkg/helper/openstack.go:139-161 | filtering by one predicate and then another is filtering by both, in the same order |
| SubnetFilter.MatcherMeans | pkg/helper/openstack.go:210-228 | a subnet matches iff its name passes the pattern, if any, and its tags are selected, if asked for |
| SubnetFilter.PushDownPreserves | pkg/helper/openstack.go:139-161 | filtering the served list without tags equals filtering everything with tags, in the same order |
| SubnetFilter.UnsafePushDownDiffers | pkg/helper/openstack.go:139-182 | where it is unsafe and some name passes the pattern, a list of subnets on which the two filters differ |
| SubnetFilter.PushDownExact | pkg/helper/openstack.go:139-182 | the two ways of filtering agree on all lists iff the push-down is safe or no name passes |
| SubnetFilter.FilterLocally | pkg/helper/openstack.go:153-160 | the loop keeps exactly the matching subnets, in order |
| SubnetFilter.ListSubnetsForNetwork | pkg/helper/openstack.go:139-161 | with a safe push-down the result is the full local filter of all subnets; the three errors exactly; with a subnet ID only the tags filter |
| Backoff.SleptClosedForm | pkg/helper/openstack.go:272-276 | n polls sleep 5 * ((6/5)^(n-1) - 1) seconds |
| Backoff.WaitsStayBelowTimeouts | pkg/constants/const.go:17-40 | 25 polls stay below 15 minutes and 12 polls below 2 minutes |
| Backoff.Timer.Pause | pkg/helper/openstack.go:272-276 | after one more pause the next one and the time slept are those of the geometric sequence, and the budget is one less |
| CloudModel.MergeStoresIff | pkg/controller/lifecycle/actuator.go:211-214 | the merge patch stores the whole record iff every field equal to the controller's own copy is right on the server, as with an up-to-date copy |
| Program.LbNameInjective | pkg/controller/lifecycle/actuator.go:61 | the name is private_network- and the namespace, so different namespaces have different names |
| Program.PaginationIndependence | pkg/helper/openstack.go:882-904 | however matches are paged, their number alone decides the outcome: none, the only one, or several |
| Program.FirstBadPageDecides | pkg/helper/openstack.go:882-904 | the first page that fails or is empty decides, by its kind of error or by what was found, unless two matches have shown before |
| Program.PickedIsTheOne | pkg/helper/openstack.go:830-837 | a listener found again by its name is the one being iterated over |
| Program.PickedIsAlone | pkg/helper/openstack.go:882-904 | a listener is found by name only when exactly one has that name |
| Program.PathExtends | pkg/controller/lifecycle/actuator.go:56-162 | a path of calls extended by a permitted call is a path, and leads one step further |
| Program.HealthAgreesWithReconcile | pkg/controller/healthcheck/util.go:101-144 | True implies no creation or deletion; a run that deletes or creates implies False; Progressing by provisioning status implies no cloud write |
| Program.HealthyNeverAges | pkg/controller/healthcheck/util.go:128-144 | a run that only sees load balancers of which the check says True never asks for their age |
| Program.UnhealthyMustBeYoung | pkg/controller/lifecycle/actuator.go:118-137 | one in operating status ERROR or OFFLINE is recorded only after the clock has shown it to be at most 15 minutes old |
| Program.PathCreates | pkg/helper/openstack.go:357-369 | every load balancer a run asks for has its name, its ranges and its ingress VIPs |
| Program.ErrorsAreReported | pkg/controller/lifecycle/actuator.go:56-162 | a run succeeds only if every call did what it was made for |
| Program.NothingToDelete | pkg/controller/lifecycle/actuator.go:155-159 | a Delete that is shown nothing live is done after that one call, and successful |
| Program.DeleteFollowsObservation | pkg/helper/openstack.go:537-541 | a deletion is requested once, right after a look-up that showed ERROR, or ACTIVE when deleting |
| Interleaving.PickLiveIsTrue | pkg/helper/openstack.go:494-507 | what the look-up reports about the live load balancers is true of the cloud |
| Interleaving.HealthIsTrue | pkg/controller/healthcheck/util.go:101-144 | True iff the one live load balancer is ACTIVE and online; False iff none is live, or it is in ERROR, or ACTIVE with operating status ERROR or OFFLINE; no verdict iff the look-up failed or several are live |
| Interleaving.StepKeepsInv | pkg/controller/lifecycle/actuator.go:88-113 | every step of every worker and of the environment keeps the invariant over program counters |
| Interleaving.RunKeepsInv | pkg/controller/lifecycle/actuator.go:88-113 | the invariant holds in every state of every run |
| Interleaving.UniqueInEveryRun | pkg/controller/lifecycle/actuator.go:88-98 | at most one live load balancer per namespace, in every state of every run |
| Interleaving.NeverMultipleResults | pkg/helper/openstack.go:500-502 | no look-up of any run reports multiple results |
| Interleaving.DeleteIsEffective | pkg/controller/lifecycle/actuator.go:141-172 | after Delete or Migrate without error nothing live of the name is left |
| Interleaving.WorkersAreLocal | pkg/controller/lifecycle/actuator.go:61-162 | no call of a worker changes a load balancer of another name |
| FloatingRuns.StepKeepsFipInv | pkg/helper/openstack.go:631-732 | with no two workers scanning the free floating IPs of one project, every step keeps the invariant on floating IPs and records |
| FloatingRuns.RunKeepsFipInv | pkg/helper/openstack.go:631-732 | that invariant holds in every state of every such run |
| FloatingRuns.RecordsAreSound | pkg/controller/lifecycle/actuator.go:114-137 | after success the record has the VIP of the one live load balancer, and no external address iff private, else the one bound to its port |
| FloatingRuns.OwnOrListedOnly | pkg/helper/openstack.go:669-732 | a worker changes only floating IPs on its own port, or one it listed as unbound that is on no port of a live load balancer of the controller; none vanishes, at most one is added per call |
| FloatingRuns.ForeignTouchedByCall | pkg/helper/openstack.go:679-684 | a call that took effect changed a floating IP that serves another port or carries forwardings iff the one it bound had been taken since it was listed |
| FloatingRuns.ForeignTouchedIff | pkg/helper/openstack.go:679-684 | in any state of a run, some next call of a worker can change one iff the worker is about to bind an address that is taken and the service accepts it |
| FloatingRuns.ForeignFipsUntouched | pkg/helper/openstack.go:669-732 | it never is, as long as others neither bind unbound floating IPs nor forward their ports |
| FloatingRuns.AtMostOneAdded | pkg/helper/openstack.go:713-726 | from the start of a run on, the calls of its worker add at most one floating IP, whatever they report |
| AllowListRuns.StepKeepsListInv | pkg/helper/openstack.go:825-851 | every step keeps how far each worker has aligned its listeners |
| AllowListRuns.RunKeepsListInv | pkg/helper/openstack.go:825-851 | that invariant holds in every state of every run |
| AllowListRuns.AllowListInEveryRun | pkg/controller/lifecycle/actuator.go:84-113 | after a successful Reconcile each listener admits exactly the configured addresses, in every interleaving |
| Waiting.DecidedEnds | pkg/helper/openstack.go:279-299 | which answers are decisive, in terms of statuses, for both waits |
| Waiting.DecidedIsFirstDecisive | pkg/helper/openstack.go:279-299 | for every infinite trace that agrees with the calls made, the outcome is the first decisive answer within the limit, and a timeout iff there is none |
| Waiting.WaitActiveAndGetLoadBalancer | pkg/helper/openstack.go:270-302 | the calls made are the polls; all but the last showed neither ACTIVE nor ERROR; reached iff the last showed ACTIVE, failed iff ERROR or an API error, timed out iff 25 showed neither; the time slept is the geometric sum for their number |
| Waiting.WaitLoadbalancerDeleted | pkg/helper/openstack.go:561-585 | the calls made are the polls; all but the last still found it; gone iff the last did not find it, failed iff another API error, timed out iff 12 found it; the time slept is the geometric sum for their number |
| Balancers.SelectLive | pkg/helper/openstack.go:494-507 | the loop finds the single load balancer that is not deleted or being deleted, or reports none or several |
| Balancers.GetLoadbalancerByName | pkg/helper/openstack.go:467-508 | found: it is there and nothing else of the name is live; missing: nothing live; multiple: two live ones |
| Balancers.BuildListeners | pkg/helper/openstack.go:381-415 | name and port, exactly the allowed CIDRs, and a pool member per VIP in order |
| Balancers.BuildAllListeners | pkg/helper/openstack.go:365-368 | the three listeners on 443, 8443 and 8132 |
| Balancers.FittingNamesDistinct | pkg/helper/openstack.go:365-383 | the three listeners have different names |
| Balancers.CreateLoadBalancer | pkg/helper/openstack.go:325-379 | success hands out the one new ACTIVE load balancer; even on failure at most one is added, on a fresh port, and nothing else changes |
| Balancers.RequestAndAwait | pkg/helper/openstack.go:369-378 | the request and the wait: success is the new load balancer, now ACTIVE; at most one is added whatever the answer |
| Balancers.DeleteLoadbalancer | pkg/helper/openstack.go:525-559 | refused for other statuses than ACTIVE and ERROR without any call; success means not live any more; others keep |
| Balancers.ReadPages | pkg/helper/openstack.go:880-904 | the page loop with its early stop computes the specified outcome |
| Balancers.GetListenerByName | pkg/helper/openstack.go:874-905 | a success is the listener asked for, the only one of its name; a cooperative cloud succeeds when the name is unique |
| Balancers.AlignListener | pkg/helper/openstack.go:835-845 | no call when the lists are equal or nothing is wanted, else one update; afterwards the listener's CIDRs are the wanted list; no other listener or load balancer is edited |
| Balancers.FindNext | pkg/helper/openstack.go:831-834 | the listener found again is the next one listed, and no other has its name |
| Balancers.CheckOne | pkg/helper/openstack.go:830-850 | one round brings the next listener in line, keeps those done and those to come, and ends with an ACTIVE load balancer |
| Balancers.CheckAll | pkg/helper/openstack.go:830-851 | the loop brings all listed listeners in line; it succeeds on a cooperative cloud iff their names are distinct |
| Balancers.CheckLoadBalancer | pkg/helper/openstack.go:810-852 | without error every listener has exactly the wanted set of CIDRs and only this load balancer was edited; a cooperative cloud succeeds iff the listeners' names are distinct |
| Attach.PortFilterExact | pkg/helper/openstack.go:766-780 | the query by port is exact iff the port is non-empty or no floating IP is bound |
| Attach.GetFloatingIPByPortID | pkg/helper/openstack.go:766-780 | one query by port; an error, none, or the first listed; none means the port carries none, one means it is on the port, if the port is non-empty |
| Attach.LookUpNetwork | pkg/helper/openstack.go:650-657 | the project is that of the network and the pool that of the pool's name, looked up in this order; an error of either is reported |
| Attach.DetachFloatingIP | pkg/helper/openstack.go:736-750 | only this floating IP changes: it is unbound, or on error possibly unbound |
| Attach.TryCandidate | pkg/helper/openstack.go:670-685 | one round: skipped if bound or forwarded, else bound; a second suitable one is refused |
| Attach.BindFree | pkg/helper/openstack.go:664-687 | at most one free address is bound; success implies at most one was suitable; a cooperative failure implies one was bound and several were suitable |
| Attach.CreateFloatingIP | pkg/helper/openstack.go:688-726 | the attempts made are one per listed subnet in order, all refused up to the first that accepts; at most one floating IP is added, on the port, in the pool and project |
| Attach.AttachFloatingIP | pkg/helper/openstack.go:610-733 | exactly one move on the floating IPs; public success: the returned address is on the port; private success: the VIP, and the port is free iff it carried at most one |
| Actuator.CheckAge | pkg/controller/lifecycle/actuator.go:118-127 | passes iff the load balancer is healthy or, by the clock that was read, at most 15 minutes old |
| Actuator.UpdateStatus | pkg/controller/lifecycle/actuator.go:201-215 | the record is put in the resource and, on success, persisted; other records, load balancers and floating IPs stay |
| Actuator.FinishRun | pkg/controller/lifecycle/actuator.go:118-137 | success persists the record for this run, whatever was stored before |
| Actuator.ObtainLoadbalancer | pkg/controller/lifecycle/actuator.go:88-109 | success: the only live load balancer of the name, ACTIVE; on a cooperative cloud failure happens only after deleting one in ERROR |
| Actuator.Align | pkg/controller/lifecycle/actuator.go:110-113 | success: still the only live load balancer, every listener admits exactly the wanted addresses, one floating IP per port at most |
| Actuator.Serve | pkg/controller/lifecycle/actuator.go:114-137 | from a checked load balancer to a reconciled state; on a cooperative cloud it fails only with an address newly bound, or for an old unhealthy one |
| Actuator.Tend | pkg/controller/lifecycle/actuator.go:110-137 | from an ACTIVE load balancer to a reconciled state; on a cooperative cloud a young or healthy one fails only with an address newly bound, a hopeless one always |
| Actuator.CreationsAsConfigured | pkg/controller/lifecycle/actuator.go:84-97 | every load balancer asked for has three listeners named after 443, 8443 and 8132, open to exactly the configured addresses, with one pool member per ingress VIP in order on the listener's port |
| Actuator.Reconcile | pkg/controller/lifecycle/actuator.go:56-138 | unreadable or malformed inputs: an error and no call; else the calls made are a path of the program for a job, and with creations, that mean what the inputs configure, whether it succeeds or not; success, alone: one live load balancer, exact allow list, sound record; a cooperative failure lowers the rank, or the load balancer was and stays stuck |
| Actuator.ReconcileUntilSuccess | pkg/controller/lifecycle/actuator.go:88-137 | from absent, ERROR, or ACTIVE with distinct listener names and healthy or young, with any free addresses, at most three calls reach the desired state |
| Actuator.ReconcileInVain | pkg/controller/lifecycle/actuator.go:99-127 | from ACTIVE with ambiguous listener names, or unhealthy and too old, no number of calls succeeds |
| Actuator.ReadyOrStuck | pkg/controller/lifecycle/actuator.go:99-127 | for a clock that stands still these two cases are complementary |
| Actuator.ReachedIsReady | pkg/controller/lifecycle/actuator.go:88-137 | in every state of every run, a namespace whose live load balancer, if any, is in ERROR or can be finished with is ready |
| Actuator.TendRank | pkg/controller/lifecycle/actuator.go:110-117 | failing after binding an address lowers the rank |
| Actuator.ErrorRank | pkg/controller/lifecycle/actuator.go:99-107 | deleting a load balancer in ERROR lowers the rank |
| Actuator.Restore | pkg/controller/lifecycle/actuator.go:165-167 | the same as Reconcile |
| Actuator.Delete | pkg/controller/lifecycle/actuator.go:141-162 | unreadable inputs: an error and no call; shown nothing live: success with one call; cooperative: success iff nothing of the name is live or the only one that is can be deleted, else the state is unchanged; success, alone: nothing live of the name, and other load balancers, floating IPs and records are spared |
| Actuator.Migrate | pkg/controller/lifecycle/actuator.go:170-172 | the same as Delete |
| Necessity.RevivalBreaksUniqueness | pkg/controller/lifecycle/actuator.go:88-98 | a valid run after which a failing deletion would leave two live load balancers of one name |
| Necessity.RaceBreaksRecords | pkg/helper/openstack.go:664-687 | a valid run of two workers in which a successful Reconcile stores an address that sits on the other's port |
| Necessity.TakeoverTouchesForeign | pkg/helper/openstack.go:664-684 | a valid run with a single worker that takes an address off a foreign load balancer, which got it after the worker had listed it |
| Necessity.EmptyPortDetachesForeign | pkg/helper/openstack.go:638-646 | a whole run of a private cluster without a VIP port that detaches a floating IP from somebody else's port |
| Necessity.EmptyPortServesForeign | pkg/helper/openstack.go:728-730 | a whole run of a public cluster without a VIP port that succeeds with an unsound record |
| Necessity.EmptyPortDetachesAny | pkg/helper/openstack.go:766-769 | from the look-up by an empty port on, any bound floating IP may be the one that is detached |

## Left out

- Authentication, client construction, HTTP, JSON and the Kubernetes client: represented by the answers of calls and by the inputs of a run; a client that cannot be built is the failure of the call it is built for.
- `GetGlobalConfigforPrivateNetwork`, `GetClusterForExtension`, `GetInfrastructureForExtension`, `findVipLBistio`: reading of inputs, each an input that is either there or an error.
- `findSubnetByCIDR`, `getFlavorIDByType`, `getNetworkByName`, `GetFloatingIPLoadbalancer`: single look-ups; the first three are answers of the `Lookup` call.
- `subnetNameMatcher`: glob and regular expressions are an uninterpreted function from patterns to matchers.
- `addField` and `String` of the subnet specification: diagnostic text.
- IPv6 text and masks; only IPv4 is modelled.
- IpSet.ParseIPNets: an IPv6 block, which the code accepts, counts as malformed here.
- IpSet.GetLoadBalancerSourceRanges: likewise for IPv6 ranges.
- Logging, metrics, command setup, charts, and the contents of error messages. In particular pkg/helper/openstack.go:848 reads a field of a possibly nil load balancer while building a message; only the error is modelled.
- pkg/helper/openstack.go:756 drops the error of listing floating IPs; the model has an error answer there.
- Wall-clock time is an integer of seconds; the conversion to UTC is dropped. Backoff is in exact real arithmetic.
- The cascade option of a deletion, and what it does to listeners and pools, is part of the one deletion event.
- Pool members are fixed when a load balancer is created; later changes of the ingress VIPs are not tracked by the code and not claimed.
- All pages of one listing are one event of the cloud; an answer that mixes two states of the cloud is not modelled.
- Assumptions on the environment: a load balancer that is being deleted only ends up deleted; nobody else creates, deletes or edits load balancers under managed names, or binds floating IPs to the ports of live ones or away from them; load balancers keep name and port; floating IPs keep address, pool and project and are never deleted; a call that reports an error takes effect at the call or never.
- Liveness beyond bounded convergence: nothing is claimed on how often the framework calls Reconcile again.
- Interleaving.WorkersAreLocal: speaks of one call; statuses of other load balancers may drift between calls.
- FloatingRuns.RecordsAreSound: assumes that no two workers are between listing and binding the free floating IPs of one project; `Necessity.RaceBreaksRecords` shows that this cannot be dropped.
- Actuator.ReconcileUntilSuccess: assumes a cooperative cloud, well-formed inputs and no pending status at the start. Operating statuses do not change by themselves on such a cloud, and a new load balancer that is unhealthy stays younger than 15 minutes.
- Actuator.UpdateStatus: overwrites the stored record as a whole, which is what the merge patch does when the controller's copy of the resource is up to date (`CloudModel.MergeStoresIff`); a stale copy, and a patch that conflicts with somebody else's, are not modelled.
