// The controller's control flow at API-call granularity: what Reconcile and Delete call next, given
// the answers so far (pkg/controller/lifecycle/actuator.go, pkg/helper/openstack.go), and how the
// health check (pkg/controller/healthcheck/util.go) judges the same look-up.
module Program {
  import opened Text
  import opened CloudModel
  import opened Backoff

  const PREFIX_LB := "private_network"

  function LbName(ns: string): string {
    PREFIX_LB + "-" + ns
  }

  lemma LbNameInjective(a: string, b: string)
    ensures LbName(a) == LbName(b) <==> a == b
    ensures LbName(a) == "private_network-" + a
  {
    if LbName(a) == LbName(b) {
      assert LbName(a)[|PREFIX_LB + "-"|..] == a;
      assert LbName(b)[|PREFIX_LB + "-"|..] == b;
    }
  }

  // ---- look-ups by name -------------------------------------------------------------------

  datatype LookupError = Missing | Multiple | ApiError

  function LiveOnes(lbs: seq<Lb>): (r: seq<Lb>)
    ensures forall lb :: lb in r <==> lb in lbs && Live(lb.status)
    ensures |r| <= |lbs|
  {
    if lbs == [] then []
    else
      var rest := LiveOnes(lbs[1..]);
      if Live(lbs[0].status) then [lbs[0]] + rest else rest
  }

  function PickLive(answer: Reply<seq<Lb>>): Result<Lb, LookupError> {
    if !answer.Answer? then Err(ApiError)
    else
      var live := LiveOnes(answer.value);
      if |live| > 1 then Err(Multiple)
      else if |live| == 0 then Err(Missing)
      else Ok(live[0])
  }

  /** Reading pages one by one, giving up as soon as a second match shows. */
  function ScanPages(pages: seq<Reply<seq<Listener>>>, found: seq<Listener>): Result<Listener, LookupError> {
    if pages == [] || pages[0] == Answer([]) then
      if found == [] then Err(Missing) else Ok(found[0])
    else if pages[0].NotFound? then Err(Missing)
    else if pages[0].Failed? then Err(ApiError)
    else if |found + pages[0].value| > 1 then Err(Multiple)
    else ScanPages(pages[1..], found + pages[0].value)
  }

  function PickListener(pages: seq<Reply<seq<Listener>>>): Result<Listener, LookupError> {
    ScanPages(pages, [])
  }

  function ByCount(matches: seq<Listener>): Result<Listener, LookupError> {
    if |matches| == 0 then Err(Missing)
    else if |matches| == 1 then Ok(matches[0])
    else Err(Multiple)
  }

  lemma {:induction false} ScanByCount(pages: seq<Reply<seq<Listener>>>, found: seq<Listener>)
    requires CleanPages(pages) && |found| <= 1
    ensures ScanPages(pages, found) == ByCount(found + Flatten(pages))
  {
    if pages == [] {
      assert found + Flatten(pages) == found;
    } else {
      assert found + Flatten(pages) == (found + pages[0].value) + Flatten(pages[1..]);
      if |found + pages[0].value| <= 1 {
        ScanByCount(pages[1..], found + pages[0].value);
      }
    }
  }

  /** However the matches are paged, only their number decides, despite the early stop. */
  lemma PaginationIndependence(pages: seq<Reply<seq<Listener>>>)
    requires CleanPages(pages)
    ensures PickListener(pages) == ByCount(Flatten(pages))
    ensures PickListener(pages) == Err(Missing) <==> |Flatten(pages)| == 0
    ensures PickListener(pages) == Err(Multiple) <==> |Flatten(pages)| > 1
    ensures |Flatten(pages)| == 1 ==> PickListener(pages) == Ok(Flatten(pages)[0])
  {
    ScanByCount(pages, []);
    assert [] + Flatten(pages) == Flatten(pages);
  }

  /** What the first page that is not clean means, unless two matches have shown before. */
  function AtBadPage(page: Reply<seq<Listener>>, before: seq<Listener>): Result<Listener, LookupError>
    requires !page.Answer? || page.value == []
  {
    if |before| > 1 then Err(Multiple)
    else match page
      case NotFound => Err(Missing)
      case Failed => Err(ApiError)
      case Answer(_) => if |before| == 1 then Ok(before[0]) else Err(Missing)
  }

  lemma {:induction false} ScanAtBadPage(pages: seq<Reply<seq<Listener>>>, n: nat, found: seq<Listener>)
    requires n < |pages| && CleanPages(pages[..n]) && (!pages[n].Answer? || pages[n].value == []) && |found| <= 1
    ensures ScanPages(pages, found) == AtBadPage(pages[n], found + Flatten(pages[..n]))
  {
    if n == 0 {
      assert pages[..0] == [] && found + Flatten(pages[..0]) == found;
    } else {
      assert pages[..n][0] == pages[0] && pages[..n][1..] == pages[1..][..n - 1];
      assert pages[0].Answer? && pages[0].value != [];
      assert found + Flatten(pages[..n]) == (found + pages[0].value) + Flatten(pages[1..][..n - 1]);
      if |found + pages[0].value| <= 1 {
        assert CleanPages(pages[..n][1..]);
        ScanAtBadPage(pages[1..], n - 1, found + pages[0].value);
      }
    }
  }

  /** The first page that fails or is empty decides, unless two matches have shown before. */
  lemma FirstBadPageDecides(pages: seq<Reply<seq<Listener>>>, n: nat)
    requires n < |pages| && CleanPages(pages[..n]) && (!pages[n].Answer? || pages[n].value == [])
    ensures PickListener(pages) == AtBadPage(pages[n], Flatten(pages[..n]))
  {
    ScanAtBadPage(pages, n, []);
    assert [] + Flatten(pages[..n]) == Flatten(pages[..n]);
  }

  lemma {:induction false} ScanOkIsClean(pages: seq<Reply<seq<Listener>>>, found: seq<Listener>)
    requires forall k :: 0 <= k < |pages| && pages[k].Answer? ==> pages[k].value != []
    requires ScanPages(pages, found).Ok?
    ensures CleanPages(pages)
  {
    if pages != [] {
      ScanOkIsClean(pages[1..], found + pages[0].value);
    }
  }

  /** A single match found by the name of a given listener is that listener. */
  lemma PickedIsTheOne(pages: seq<Reply<seq<Listener>>>, listeners: seq<Listener>, l: Listener)
    requires l in listeners && AnswersPages(pages, listeners, l.name)
    requires PickListener(pages).Ok?
    ensures PickListener(pages).value == l
  {
    ScanOkIsClean(pages, []);
    PaginationIndependence(pages);
    assert l in Named(listeners, l.name);
  }

  /** A listener is found by name only when no other one has that name. */
  lemma PickedIsAlone(pages: seq<Reply<seq<Listener>>>, listeners: seq<Listener>, name: string)
    requires AnswersPages(pages, listeners, name) && PickListener(pages).Ok?
    ensures |Named(listeners, name)| == 1
  {
    ScanOkIsClean(pages, []);
    PaginationIndependence(pages);
  }

  // ---- the program ------------------------------------------------------------------------

  datatype Op = Reconcile | Delete

  /** What one run works on; `ranges` are the keys of the allowed CIDR set, `vips` the ingress VIPs found. */
  datatype Job = Job(op: Op, ns: string, private: bool, ranges: set<string>, vips: seq<string>)

  const PORTS: seq<nat> := [443, 8443, 8132]

  /** A listener named after its port, open to the ranges, in front of a pool of all VIPs on that port. */
  predicate ListenerFits(spec: ListenerSpec, name: string, vips: seq<string>, ranges: set<string>, port: nat) {
    && spec.name == name + "-" + Decimal(port) && spec.port == port
    && Elems(spec.cidrs) == ranges
    && |spec.members| == |vips|
    && forall i :: 0 <= i < |vips| ==> spec.members[i] == PoolMember(vips[i], port)
  }

  predicate ListenersFit(specs: seq<ListenerSpec>, name: string, vips: seq<string>, ranges: set<string>) {
    |specs| == |PORTS| && forall j :: 0 <= j < |PORTS| ==> ListenerFits(specs[j], name, vips, ranges, PORTS[j])
  }

  datatype Pc =
    | Find
    | SubnetOf
    | FlavorOf
    | Create
    | Await(id: nat, after: Option<seq<Listener>>, polls: nat)
    | Listeners(lb: Lb)
    | Resolve(lb: Lb, rest: seq<Listener>)
    | Adjust(lb: Lb, l: Listener, rest: seq<Listener>)
    | FindFip(lb: Lb)
    | Detach(lb: Lb, fip: Fip)
    | Project(lb: Lb)
    | Pool(lb: Lb, project: string)
    | Free(lb: Lb, project: string, pool: string)
    | Forwards(lb: Lb, project: string, pool: string, cands: seq<Fip>, bound: Option<Fip>)
    | Bind(lb: Lb, project: string, pool: string, cands: seq<Fip>, bound: Option<Fip>)
    | Subnets(lb: Lb, project: string, pool: string)
    | NewFip(lb: Lb, project: string, pool: string, subnets: seq<string>)
    | Age(lb: Lb, addr: string)
    | Patch(lb: Lb, addr: string)
    | Drop(id: nat)
    | AwaitGone(id: nat, polls: nat)
    | Done(ok: bool)

  /** The record a run persists; whatever was stored before plays no part. */
  function RecordFor(job: Job, lb: Lb, addr: string): Record {
    if job.private then Record(Some(lb.vip), None, "Private") else Record(Some(lb.vip), Some(addr), "Public")
  }

  /** Which calls the program may make next. */
  predicate Permits(job: Job, pc: Pc, e: Event) {
    match pc
    case Find => e.ListLbs? && e.name == LbName(job.ns)
    case SubnetOf => e.Lookup? && e.kind == WorkerSubnet
    case FlavorOf => e.Lookup? && e.kind == FlavorId
    case Create => e.CreateLb? && e.name == LbName(job.ns) && ListenersFit(e.specs, e.name, job.vips, job.ranges)
    case Await(id, _, _) => e.GetLb? && e.id == id
    case Listeners(lb) => e.ListListeners? && e.id == lb.id
    case Resolve(lb, rest) => rest != [] && e.ListenersNamed? && e.id == lb.id && e.name == rest[0].name
    case Adjust(lb, l, _) =>
      || (e.UpdateListener? && e.id == lb.id && e.listener == l.id && Elems(e.cidrs) == job.ranges)
      || (e.KeepListener? && e.id == lb.id && e.listener == l.id && (job.ranges == {} || Elems(l.cidrs) == job.ranges))
    case FindFip(lb) => e.ListFips? && e.query == OnPort(lb.port)
    case Detach(_, f) => e.UpdateFip? && e.fip == f.id && e.target == None
    case Project(_) => e.Lookup? && e.kind == NetworkProject
    case Pool(_, _) => e.Lookup? && e.kind == PoolId
    case Free(_, project, pool) => e.ListFips? && e.query == DownIn(pool, project)
    case Forwards(_, _, _, cands, _) => cands != [] && e.ListForwardings? && e.fip == cands[0].id
    case Bind(lb, _, _, cands, _) => cands != [] && e.UpdateFip? && e.fip == cands[0].id && e.target == Some(lb.port)
    case Subnets(_, _, pool) => e.ListSubnets? && e.pool == pool
    case NewFip(lb, project, pool, subnets) =>
      && subnets != [] && e.CreateFip?
      && e.port == lb.port && e.pool == pool && e.project == project && e.subnet == subnets[0]
    case Age(_, _) => e.ReadClock?
    case Patch(lb, addr) => e.PatchStatus? && e.ns == job.ns && e.record == RecordFor(job, lb, addr)
    case Drop(id) => e.DeleteLb? && e.id == id
    case AwaitGone(id, _) => e.GetLb? && e.id == id
    case Done(_) => false
  }

  function AfterFind(job: Job, found: Result<Lb, LookupError>): Pc {
    match found
    case Err(Missing) => if job.op.Delete? then Done(true) else SubnetOf
    case Err(_) => Done(false)
    case Ok(lb) =>
      if lb.status.Error? then Drop(lb.id)
      else if !lb.status.Active? then Done(false)
      else if job.op.Delete? then Drop(lb.id)
      else Listeners(lb)
  }

  function NextListener(lb: Lb, rest: seq<Listener>): Pc {
    if rest == [] then FindFip(lb) else Resolve(lb, rest)
  }

  function AfterActive(lb: Lb, after: Option<seq<Listener>>): Pc {
    if after == None then Listeners(lb) else NextListener(lb, after.value)
  }

  function AfterPoll(id: nat, after: Option<seq<Listener>>, polls: nat, got: Reply<Lb>): Pc {
    if !got.Answer? || got.value.status.Error? then Done(false)
    else if got.value.status.Active? then AfterActive(got.value, after)
    else if polls + 1 < ACTIVE_STEPS then Await(id, after, polls + 1)
    else Done(false)
  }

  function AfterGonePoll(job: Job, id: nat, polls: nat, got: Reply<Lb>): Pc {
    if got.NotFound? then Done(job.op.Delete?)
    else if got.Failed? || polls + 1 >= DELETE_STEPS then Done(false)
    else AwaitGone(id, polls + 1)
  }

  predicate Unhealthy(lb: Lb) {
    lb.oper.OperError? || lb.oper.Offline?
  }

  /** The address is settled; an unhealthy load balancer still has to pass the age check. */
  function Settled(lb: Lb, addr: string): Pc {
    if Unhealthy(lb) then Age(lb, addr) else Patch(lb, addr)
  }

  function NextCandidate(lb: Lb, project: string, pool: string, cands: seq<Fip>, bound: Option<Fip>): Pc {
    if cands != [] then Forwards(lb, project, pool, cands, bound)
    else if bound.Some? then Settled(lb, bound.value.addr)
    else Subnets(lb, project, pool)
  }

  function AfterFindFip(job: Job, lb: Lb, fips: Reply<seq<Fip>>): Pc {
    if !fips.Answer? then Done(false)
    else if job.private then if fips.value == [] then Settled(lb, lb.vip) else Detach(lb, fips.value[0])
    else if fips.value == [] then Project(lb)
    else Settled(lb, fips.value[0].addr)
  }

  function AfterForwards(pc: Pc, count: Reply<nat>): Pc
    requires pc.Forwards? && pc.cands != []
  {
    var Forwards(lb, project, pool, cands, bound) := pc;
    if !count.Answer? then Done(false)
    else if cands[0].port == "" && count.value == 0 then Bind(lb, project, pool, cands, bound)
    else NextCandidate(lb, project, pool, cands[1..], bound)
  }

  function AfterNewFip(pc: Pc, made: Reply<Fip>): Pc
    requires pc.NewFip? && pc.subnets != []
  {
    if made.Answer? then Settled(pc.lb, made.value.addr)
    else if |pc.subnets| > 1 then pc.(subnets := pc.subnets[1..])
    else Done(false)
  }

  function Next(job: Job, pc: Pc, e: Event): Pc
    requires Permits(job, pc, e)
  {
    match pc
    case Find => AfterFind(job, PickLive(e.lbs))
    case SubnetOf => if e.found.Answer? then FlavorOf else Done(false)
    case FlavorOf => if e.found.Answer? then Create else Done(false)
    case Create => if e.made.Answer? then Await(e.made.value.id, None, 0) else Done(false)
    case Await(id, after, polls) => AfterPoll(id, after, polls, e.got)
    case Listeners(lb) => if e.listeners.Answer? then NextListener(lb, e.listeners.value) else Done(false)
    case Resolve(lb, rest) =>
      var l := PickListener(e.pages);
      if l.Ok? then Adjust(lb, l.value, rest[1..]) else Done(false)
    case Adjust(lb, _, rest) =>
      if e.UpdateListener? && !e.updated.Answer? then Done(false) else Await(lb.id, Some(rest), 0)
    case FindFip(lb) => AfterFindFip(job, lb, e.fips)
    case Detach(lb, _) => if e.bound.Answer? then Settled(lb, lb.vip) else Done(false)
    case Project(lb) => if e.found.Answer? then Pool(lb, e.found.value) else Done(false)
    case Pool(lb, project) => if e.found.Answer? then Free(lb, project, e.found.value) else Done(false)
    case Free(lb, project, pool) =>
      if e.fips.Answer? then NextCandidate(lb, project, pool, e.fips.value, None) else Done(false)
    case Forwards(_, _, _, _, _) => AfterForwards(pc, e.count)
    case Bind(lb, project, pool, cands, _) =>
      if e.bound.Answer? then NextCandidate(lb, project, pool, cands[1..], Some(e.bound.value)) else Done(false)
    case Subnets(lb, project, pool) =>
      if e.subnets.Answer? && e.subnets.value != [] then NewFip(lb, project, pool, e.subnets.value) else Done(false)
    case NewFip(_, _, _, _) => AfterNewFip(pc, e.obtained)
    case Age(lb, addr) => if lb.created < e.now - OPERATING_TIMEOUT then Done(false) else Patch(lb, addr)
    case Patch(_, _) => Done(e.patched.Answer?)
    case Drop(id) => if e.gone.Failed? then Done(false) else AwaitGone(id, 0)
    case AwaitGone(id, polls) => AfterGonePoll(job, id, polls, e.got)
  }

  // ---- health check -----------------------------------------------------------------------

  datatype Health = True | False | Progressing | Unknown

  /** The classification of the health check; an API error or several matches give no verdict. */
  function Check(found: Result<Lb, LookupError>): Health {
    match found
    case Err(Missing) => False
    case Err(_) => Unknown
    case Ok(lb) =>
      if !lb.status.Active? then if lb.status.Error? then False else Progressing
      else if !lb.oper.Online? then if Unhealthy(lb) then False else Progressing
      else True
  }

  /** The calls of one run, in order, from a given point of the program. */
  predicate Path(job: Job, pc: Pc, es: seq<Event>)
    decreases |es|
  {
    es != [] ==> Permits(job, pc, es[0]) && Path(job, Next(job, pc, es[0]), es[1..])
  }

  /** Where a sequence of calls leads. */
  function After(job: Job, pc: Pc, es: seq<Event>): Pc
    requires Path(job, pc, es)
    decreases |es|
  {
    if es == [] then pc else After(job, Next(job, pc, es[0]), es[1..])
  }

  lemma {:induction false} PathExtends(job: Job, pc: Pc, es: seq<Event>, e: Event)
    requires Path(job, pc, es) && Permits(job, After(job, pc, es), e)
    ensures Path(job, pc, es + [e])
    ensures After(job, pc, es + [e]) == Next(job, After(job, pc, es), e)
    decreases |es|
  {
    if es == [] {
      assert (es + [e])[1..] == [];
    } else {
      PathExtends(job, Next(job, pc, es[0]), es[1..], e);
      assert (es + [e])[1..] == es[1..] + [e];
    }
  }

  predicate CloudWrite(e: Event) {
    e.CreateLb? || e.DeleteLb? || e.UpdateListener? || e.UpdateFip? || e.CreateFip? || e.PatchStatus?
  }

  /** Past the look-up of an ACTIVE load balancer no creation or deletion is in sight. */
  predicate Tending(pc: Pc) {
    match pc
    case Find | SubnetOf | FlavorOf | Create | Drop(_) | AwaitGone(_, _) => false
    case Await(_, after, _) => after.Some?
    case _ => true
  }

  lemma {:induction false} TendingPath(job: Job, pc: Pc, es: seq<Event>)
    requires Tending(pc) && Path(job, pc, es)
    ensures forall k :: 0 <= k < |es| ==> !es[k].CreateLb? && !es[k].DeleteLb?
    decreases |es|
  {
    if es != [] {
      TendingPath(job, Next(job, pc, es[0]), es[1..]);
    }
  }

  /** From the deletion branch on, a run only deletes and polls. */
  predicate Dropping(pc: Pc) {
    pc.Drop? || pc.AwaitGone? || pc.Done?
  }

  lemma {:induction false} DroppingPath(job: Job, pc: Pc, es: seq<Event>)
    requires Dropping(pc) && Path(job, pc, es)
    ensures forall k :: 0 <= k < |es| ==> es[k].DeleteLb? || es[k].GetLb?
    decreases |es|
  {
    if es != [] {
      DroppingPath(job, Next(job, pc, es[0]), es[1..]);
    }
  }

  /** On the creation branch, and past it, nothing is deleted. */
  predicate Creating(pc: Pc) {
    pc.SubnetOf? || pc.FlavorOf? || pc.Create? || pc.Await? || Tending(pc)
  }

  lemma {:induction false} CreatingPath(job: Job, pc: Pc, es: seq<Event>)
    requires Creating(pc) && Path(job, pc, es)
    ensures forall k :: 0 <= k < |es| ==> !es[k].DeleteLb?
    decreases |es|
  {
    if es != [] {
      CreatingPath(job, Next(job, pc, es[0]), es[1..]);
    }
  }

  /** Reconcile and the health check agree whenever they see the same listing. */
  lemma HealthAgreesWithReconcile(job: Job, es: seq<Event>)
    requires job.op.Reconcile? && Path(job, Find, es) && es != []
    ensures Check(PickLive(es[0].lbs)) == True ==> forall k :: 0 <= k < |es| ==> !es[k].CreateLb? && !es[k].DeleteLb?
    ensures (exists k :: 0 <= k < |es| && es[k].DeleteLb?) ==> Check(PickLive(es[0].lbs)) == False
    ensures (exists k :: 0 <= k < |es| && es[k].CreateLb?) ==> Check(PickLive(es[0].lbs)) == False
    ensures PickLive(es[0].lbs).Ok? && !PickLive(es[0].lbs).value.status.Active?
            && Check(PickLive(es[0].lbs)) == Progressing
            ==> forall k :: 0 <= k < |es| ==> !CloudWrite(es[k])
  {
    var found := PickLive(es[0].lbs);
    var pc := Next(job, Find, es[0]);
    if pc == SubnetOf {
      CreatingPath(job, pc, es[1..]);
    } else if pc.Drop? {
      DroppingPath(job, pc, es[1..]);
    } else {
      TendingPath(job, pc, es[1..]);
    }
  }

  /** A deletion is requested once, right after the look-up, and only for a load balancer seen ACTIVE or in ERROR. */
  lemma DeleteFollowsObservation(job: Job, es: seq<Event>, k: nat)
    requires Path(job, Find, es) && k < |es| && es[k].DeleteLb?
    ensures k == 1 && PickLive(es[0].lbs).Ok? && PickLive(es[0].lbs).value.id == es[1].id
    ensures var status := PickLive(es[0].lbs).value.status; status.Error? || (status.Active? && job.op.Delete?)
  {
    var pc := Next(job, Find, es[0]);
    if pc.Drop? {
      if k > 1 {
        PollingPath(job, Next(job, pc, es[1]), es[1..][1..]);
      }
    } else if pc == SubnetOf {
      CreatingPath(job, pc, es[1..]);
    } else {
      TendingPath(job, pc, es[1..]);
    }
  }

  lemma {:induction false} PollingPath(job: Job, pc: Pc, es: seq<Event>)
    requires (pc.AwaitGone? || pc.Done?) && Path(job, pc, es)
    ensures forall k :: 0 <= k < |es| ==> es[k].GetLb?
    decreases |es|
  {
    if es != [] {
      PollingPath(job, Next(job, pc, es[0]), es[1..]);
    }
  }

  // ---- what the answers lead to -----------------------------------------------------------

  /** Every load balancer that is asked for has the three listeners, each with a pool of all ingress VIPs. */
  lemma {:induction false} PathCreates(job: Job, pc: Pc, es: seq<Event>)
    requires Path(job, pc, es)
    ensures forall k :: 0 <= k < |es| && es[k].CreateLb? ==>
              es[k].name == LbName(job.ns) && ListenersFit(es[k].specs, LbName(job.ns), job.vips, job.ranges)
    decreases |es|
  {
    if es != [] {
      PathCreates(job, Next(job, pc, es[0]), es[1..]);
    }
  }

  /** The call did what it was made for; a deletion may also find that the load balancer is gone already. */
  predicate Heeded(job: Job, e: Event) {
    match e
    case ListLbs(_, r) => r.Answer?
    case Lookup(_, r) => r.Answer?
    case CreateLb(_, _, r) => r.Answer?
    case GetLb(_, r) => r.Answer? || (r.NotFound? && job.op.Delete?)
    case DeleteLb(_, r) => !r.Failed?
    case ListListeners(_, r) => r.Answer?
    case ListenersNamed(_, _, pages) => PickListener(pages).Ok?
    case UpdateListener(_, _, _, r) => r.Answer?
    case ListFips(_, r) => r.Answer?
    case ListForwardings(_, r) => r.Answer?
    case UpdateFip(_, _, r) => r.Answer?
    case ListSubnets(_, r) => r.Answer? && r.value != []
    case PatchStatus(_, _, r) => r.Answer?
    case CreateFip(_, _, _, _, _) => true
    case KeepListener(_, _) => true
    case ReadClock(_) => true
  }

  lemma FailureStops(job: Job, pc: Pc, e: Event)
    requires Permits(job, pc, e) && !Heeded(job, e)
    ensures Next(job, pc, e) == Done(false)
  {
  }

  /** A run succeeds only if all its calls did; a subnet that refuses is the one exception, as another may accept. */
  lemma {:induction false} ErrorsAreReported(job: Job, pc: Pc, es: seq<Event>)
    requires Path(job, pc, es) && After(job, pc, es) == Done(true)
    ensures forall k :: 0 <= k < |es| ==> Heeded(job, es[k])
    decreases |es|
  {
    if es != [] {
      if !Heeded(job, es[0]) {
        FailureStops(job, pc, es[0]);
      }
      ErrorsAreReported(job, Next(job, pc, es[0]), es[1..]);
    }
  }

  lemma {:induction false} NoneLiveAmong(lbs: seq<Lb>)
    requires forall lb :: lb in lbs ==> lb.status in {PendingDelete, Deleted, Purged}
    ensures LiveOnes(lbs) == []
  {
    if lbs != [] {
      NoneLiveAmong(lbs[1..]);
    }
  }

  /** A Delete that is shown nothing live is done, and successful. */
  lemma NothingToDelete(job: Job, es: seq<Event>)
    requires job.op.Delete? && Path(job, Find, es) && es != [] && es[0].lbs.Answer?
    requires forall lb :: lb in es[0].lbs.value ==> lb.status in {PendingDelete, Deleted, Purged}
    ensures |es| == 1 && After(job, Find, es) == Done(true)
  {
    NoneLiveAmong(es[0].lbs.value);
    assert es[1..] == [];
  }

  // ---- health and age ---------------------------------------------------------------------

  /** The health check would say True of every load balancer that the run gets to see and goes on with. */
  predicate SeenHealthy(e: Event) {
    && (e.ListLbs? && PickLive(e.lbs).Ok? ==> Check(PickLive(e.lbs)) == True)
    && (e.GetLb? && e.got.Answer? && e.got.value.status == Active ==> Check(Ok(e.got.value)) == True)
  }

  /** The load balancer that the program holds, if any, is healthy. */
  predicate HoldsHealthy(pc: Pc) {
    Tending(pc) && !pc.Await? && !pc.Done? ==> !pc.Age? && Check(Ok(pc.lb)) == True
  }

  /** A run that only sees healthy load balancers never asks for their age, so it cannot fail by it. */
  lemma {:induction false} HealthyNeverAges(job: Job, pc: Pc, es: seq<Event>)
    requires HoldsHealthy(pc) && Path(job, pc, es) && forall k :: 0 <= k < |es| ==> SeenHealthy(es[k])
    ensures forall k :: 0 <= k < |es| ==> !es[k].ReadClock?
    decreases |es|
  {
    if es != [] {
      HealthyStays(job, pc, es[0]);
      HealthyNeverAges(job, Next(job, pc, es[0]), es[1..]);
    }
  }

  lemma HealthyStays(job: Job, pc: Pc, e: Event)
    requires HoldsHealthy(pc) && Permits(job, pc, e) && SeenHealthy(e)
    ensures HoldsHealthy(Next(job, pc, e)) && !e.ReadClock?
  {
  }

  /** From the look-up of its floating IP on, the program holds this load balancer and has not asked for its age. */
  predicate BeforeAge(pc: Pc, lb: Lb) {
    match pc
    case FindFip(_) | Detach(_, _) | Project(_) | Pool(_, _) | Free(_, _, _) | Forwards(_, _, _, _, _)
       | Bind(_, _, _, _, _) | Subnets(_, _, _) | NewFip(_, _, _, _) | Age(_, _) => pc.lb == lb
    case _ => false
  }

  /** An unhealthy load balancer is recorded only after the clock has shown it to be at most 15 minutes old. */
  lemma {:induction false} UnhealthyMustBeYoung(job: Job, pc: Pc, lb: Lb, es: seq<Event>, k: nat) returns (j: nat)
    requires lb.oper == OperError || lb.oper == Offline
    requires BeforeAge(pc, lb) && Path(job, pc, es) && k < |es| && es[k].PatchStatus?
    ensures j < k && es[j].ReadClock? && lb.created >= es[j].now - 900
    decreases |es|
  {
    var pc' := Next(job, pc, es[0]);
    if pc.Age? {
      j := 0;
    } else {
      assert BeforeAge(pc', lb) || pc' == Done(false);
      j := UnhealthyMustBeYoung(job, pc', lb, es[1..], k - 1);
      j := j + 1;
    }
  }
}
