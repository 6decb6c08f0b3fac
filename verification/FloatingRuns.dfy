// Floating IPs and persisted records over whole runs, as long as no two workers go through the free
// floating IPs of the same project at the same time.
module FloatingRuns {
  import opened Text
  import opened CloudModel
  import opened Program
  import opened Interleaving

  predicate InAttach(pc: Pc) {
    || pc.FindFip? || pc.Detach? || pc.Project? || pc.Pool? || pc.Free?
    || pc.Forwards? || pc.Bind? || pc.Subnets? || pc.NewFip?
  }

  /** Between listing the free floating IPs of a project and being done with them. */
  predicate Scanning(pc: Pc) {
    pc.Forwards? || pc.Bind?
  }

  predicate BothScan(x: Pc, y: Pc) {
    Scanning(x) && Scanning(y) && x.project == y.project
  }

  ghost predicate Exclusive(w: World) {
    forall a, b :: a in w.workers && b in w.workers && BothScan(w.workers[a].pc, w.workers[b].pc) ==> a == b
  }

  // ---- the invariant ----------------------------------------------------------------------

  predicate On(c: State, f: int, port: string) {
    0 <= f < |c.fips| && c.fips[f].port == port
  }

  ghost predicate NoneOn(c: State, port: string) {
    forall f :: !On(c, f, port)
  }

  ghost predicate SomeOn(c: State, port: string, addr: string) {
    exists f :: On(c, f, port) && c.fips[f].addr == addr
  }

  /** Ports of load balancers are real and distinct, and none carries two floating IPs. */
  ghost predicate FipSound(c: State) {
    && (forall i :: 0 <= i < |c.lbs| ==> c.lbs[i].port != "")
    && (forall i, j :: 0 <= i < j < |c.lbs| ==> c.lbs[i].port != c.lbs[j].port)
    && (forall i, f, g ::
          0 <= i < |c.lbs| && Ours(c.lbs[i]) && On(c, f, c.lbs[i].port) && On(c, g, c.lbs[i].port) ==> f == g)
  }

  /** Listed candidates belong to pool and project, and those listed as unbound are on no load balancer's port. */
  ghost predicate CandidatesFree(c: State, cands: seq<Fip>, pool: string, project: string) {
    && (forall k :: 0 <= k < |cands| ==>
          && cands[k].id < |c.fips| && c.fips[cands[k].id].pool == pool && c.fips[cands[k].id].project == project
          && (cands[k].port == "" ==> !PortOfOurs(c.lbs, c.fips[cands[k].id].port)))
    && (forall j, k :: 0 <= j < k < |cands| ==> cands[j].id != cands[k].id)
  }

  ghost predicate BoundHere(c: State, port: string, pool: string, bound: Option<Fip>) {
    match bound
    case None => NoneOn(c, port)
    case Some(f) => On(c, f.id, port) && c.fips[f.id].addr == f.addr && c.fips[f.id].pool == pool
  }

  /** The address handed out is the right one for the kind of cluster. */
  ghost predicate Served(c: State, job: Job, port: string, addr: string) {
    if job.private then NoneOn(c, port) else SomeOn(c, port, addr)
  }

  ghost predicate RecordDescribes(c: State, job: Job, i: int, addr: string) {
    && LiveNamed(c, i, LbName(job.ns)) && job.ns in c.records
    && c.records[job.ns] == RecordFor(job, c.lbs[i], addr)
    && Served(c, job, c.lbs[i].port, addr)
  }

  /** The stored record describes the live load balancer of the namespace. */
  ghost predicate RecordSound(c: State, job: Job) {
    exists i, addr :: RecordDescribes(c, job, i, addr)
  }

  ghost predicate FipGood(c: State, job: Job, pc: Pc) {
    match pc
    case Detach(lb, f) => job.private && On(c, f.id, lb.port)
    case Project(lb) => !job.private && NoneOn(c, lb.port)
    case Pool(lb, _) => !job.private && NoneOn(c, lb.port)
    case Free(lb, _, _) => !job.private && NoneOn(c, lb.port)
    case Subnets(lb, _, _) => !job.private && NoneOn(c, lb.port)
    case Forwards(lb, project, pool, cands, bound) =>
      !job.private && CandidatesFree(c, cands, pool, project) && BoundHere(c, lb.port, pool, bound)
    case Bind(lb, project, pool, cands, bound) =>
      && !job.private && CandidatesFree(c, cands, pool, project) && BoundHere(c, lb.port, pool, bound)
      && cands != [] && cands[0].port == ""
    case NewFip(lb, _, pool, _) => !job.private && forall f :: On(c, f, lb.port) ==> c.fips[f].pool == pool
    case Age(lb, addr) => Served(c, job, lb.port, addr)
    case Patch(lb, addr) => Served(c, job, lb.port, addr)
    case Done(ok) => ok && job.op.Reconcile? ==> RecordSound(c, job)
    case _ => true
  }

  ghost predicate FipInv(w: World) {
    && FipSound(w.cloud)
    && forall ns :: ns in w.workers ==> FipGood(w.cloud, w.workers[ns].job, w.workers[ns].pc)
  }

  // ---- what a step leaves alone -----------------------------------------------------------

  /** Nothing arrives at this port, and nothing leaves it. */
  ghost predicate SparesPort(a: State, b: State, port: string) {
    && (forall f :: On(b, f, port) <==> On(a, f, port))
    && (forall f :: On(a, f, port) ==> b.fips[f].addr == a.fips[f].addr && b.fips[f].pool == a.fips[f].pool)
  }

  /** Floating IPs of this project that are on no load balancer's port do not get to one. */
  ghost predicate SparesFree(a: State, b: State, project: string) {
    && |a.fips| <= |b.fips|
    && forall f :: 0 <= f < |a.fips| ==>
         && b.fips[f].pool == a.fips[f].pool && b.fips[f].project == a.fips[f].project
         && (a.fips[f].project == project && !PortOfOurs(a.lbs, a.fips[f].port) ==> !PortOfOurs(b.lbs, b.fips[f].port))
  }

  lemma SparedServed(a: State, b: State, job: Job, port: string, addr: string)
    requires SparesPort(a, b, port) && Served(a, job, port, addr)
    ensures Served(b, job, port, addr)
  {
    if !job.private {
      var f :| On(a, f, port) && a.fips[f].addr == addr;
      assert On(b, f, port);
    }
  }

  lemma SparedRecord(a: State, b: State, job: Job)
    requires RecordSound(a, job) && Spares(a, b, LbName(job.ns))
    requires job.ns in a.records ==> job.ns in b.records && b.records[job.ns] == a.records[job.ns]
    requires forall i :: LiveNamed(a, i, LbName(job.ns)) ==> SparesPort(a, b, a.lbs[i].port)
    ensures RecordSound(b, job)
  {
    var i, addr :| RecordDescribes(a, job, i, addr);
    SparedServed(a, b, job, a.lbs[i].port, addr);
    assert LiveNamed(b, i, LbName(job.ns));
    assert RecordDescribes(b, job, i, addr);
  }

  /** Facts a worker holds about its port survive steps that spare that port. */
  lemma SparedFipGood(a: State, b: State, job: Job, pc: Pc)
    requires Good(a, job, pc) && FipGood(a, job, pc) && Spares(a, b, LbName(job.ns))
    requires job.ns in a.records ==> job.ns in b.records && b.records[job.ns] == a.records[job.ns]
    requires forall i :: LiveNamed(a, i, LbName(job.ns)) ==> SparesPort(a, b, a.lbs[i].port)
    requires Scanning(pc) ==> SparesFree(a, b, pc.project)
    ensures FipGood(b, job, pc)
  {
    if pc.Done? {
      if pc.ok && job.op.Reconcile? {
        SparedRecord(a, b, job);
      }
    } else if InAttach(pc) {
      assert SparesPort(a, b, pc.lb.port);
    } else if pc.Age? || pc.Patch? {
      assert SparesPort(a, b, pc.lb.port);
      SparedServed(a, b, job, pc.lb.port, pc.addr);
    }
  }

  // ---- steps of the environment -----------------------------------------------------------

  lemma EnvironmentFips(a: State, b: State)
    requires FipSound(a) && EnvironmentStep(a, b)
    ensures FipSound(b) && b.records == a.records && forall project :: SparesFree(a, b, project)
    ensures forall i :: 0 <= i < |a.lbs| && Ours(a.lbs[i]) ==> SparesPort(a, b, a.lbs[i].port)
  {
    if Drift(a, b) {
      assert forall i :: 0 <= i < |a.lbs| ==> Keeps(a.lbs[i], b.lbs[i]);
    }
    forall i | 0 <= i < |a.lbs| && Ours(a.lbs[i])
      ensures SparesPort(a, b, a.lbs[i].port) && b.lbs[i].port == a.lbs[i].port
    {
      assert PortOfOurs(a.lbs, a.lbs[i].port);
    }
    forall i, f, g | 0 <= i < |b.lbs| && Ours(b.lbs[i]) && On(b, f, b.lbs[i].port) && On(b, g, b.lbs[i].port)
      ensures f == g
    {
      if i < |a.lbs| {
        assert On(a, f, a.lbs[i].port) && On(a, g, a.lbs[i].port);
      }
    }
  }

  // ---- steps of a worker ------------------------------------------------------------------

  /** Outside AttachFloatingIP no floating IP changes. */
  lemma OutsideAttach(a: State, e: Event, b: State, job: Job, pc: Pc)
    requires !InAttach(pc) && Permits(job, pc, e) && Effect(a, e, b)
    ensures b.fips == a.fips
    ensures forall ns :: ns != job.ns && ns in a.records ==> ns in b.records && b.records[ns] == a.records[ns]
  {
  }

  /** Inside it, a floating IP moves only from no load balancer's port to the worker's own, or off that one. */
  ghost predicate OwnPortOnly(a: State, b: State, port: string) {
    && b == a.(fips := b.fips) && |a.fips| <= |b.fips| <= |a.fips| + 1
    && (forall f :: 0 <= f < |a.fips| ==>
          || b.fips[f] == a.fips[f]
          || (b.fips[f] == a.fips[f].(port := port) && !PortOfOurs(a.lbs, a.fips[f].port))
          || (b.fips[f] == a.fips[f].(port := "") && a.fips[f].port == port))
    && (forall f :: |a.fips| <= f < |b.fips| ==> b.fips[f].port == port)
  }

  lemma InsideAttach(a: State, e: Event, b: State, job: Job, pc: Pc)
    requires InAttach(pc) && FipGood(a, job, pc) && Permits(job, pc, e) && Effect(a, e, b)
    ensures OwnPortOnly(a, b, pc.lb.port)
  {
  }

  lemma OwnPortSparesOthers(a: State, b: State, port: string, other: string)
    requires OwnPortOnly(a, b, port) && port != other && other != "" && PortOfOurs(a.lbs, other)
    ensures SparesPort(a, b, other)
  {
  }

  /** No second floating IP ever reaches the port: the service refuses it, or the program does not ask. */
  lemma OwnStepSound(a: State, e: Event, b: State, job: Job, pc: Pc)
    requires InAttach(pc) && FipSound(a) && Good(a, job, pc) && FipGood(a, job, pc)
    requires Permits(job, pc, e) && Effect(a, e, b)
    ensures FipSound(b)
  {
    InsideAttach(a, e, b, job, pc);
    var port := pc.lb.port;
    forall i, f, g | 0 <= i < |b.lbs| && Ours(b.lbs[i]) && On(b, f, b.lbs[i].port) && On(b, g, b.lbs[i].port)
      ensures f == g
    {
      if b.lbs[i].port != port {
        assert On(a, f, a.lbs[i].port) && On(a, g, a.lbs[i].port);
      } else {
        OneArrival(a, e, b, job, pc, f, g);
      }
    }
  }

  lemma OneArrival(a: State, e: Event, b: State, job: Job, pc: Pc, f: int, g: int)
    requires InAttach(pc) && FipSound(a) && Good(a, job, pc) && FipGood(a, job, pc)
    requires Permits(job, pc, e) && Effect(a, e, b)
    requires On(b, f, pc.lb.port) && On(b, g, pc.lb.port)
    ensures f == g
  {
    var port := pc.lb.port;
    assert a.lbs[pc.lb.id].port == port;
    assert PortOfOurs(a.lbs, port);
    if On(a, f, port) && On(a, g, port) {
    } else if pc.Bind? {
      assert Rebinds(a, e.fip, e.target, b);
      assert (f == e.fip || On(a, f, port)) && (g == e.fip || On(a, g, port));
      if pc.bound.Some? {
        assert On(a, pc.bound.value.id, port);
      }
    } else if pc.NewFip? {
      assert AddsFip(a, e.port, e.pool, e.project, b);
      assert NoneOn(a, port);
    }
  }

  lemma FindFipGood(c: State, e: Event, job: Job, pc: Pc)
    requires pc.FindFip? && pc.lb.port != "" && Permits(job, pc, e) && Effect(c, e, c)
    ensures FipGood(c, job, Next(job, pc, e))
  {
    if e.fips.Answer? {
      var r := e.fips.value;
      if r == [] {
        assert forall f :: On(c, f, pc.lb.port) ==> Hits(e.query, c.fips[f]);
      } else {
        assert On(c, r[0].id, pc.lb.port);
      }
    }
  }

  lemma DetachGood(a: State, e: Event, b: State, job: Job, pc: Pc)
    requires pc.Detach? && FipSound(a) && Good(a, job, pc) && FipGood(a, job, pc)
    requires Permits(job, pc, e) && Effect(a, e, b)
    ensures FipGood(b, job, Next(job, pc, e))
  {
    var port := pc.lb.port;
    assert a.lbs[pc.lb.id].port == port;
    if e.bound.Answer? {
      var detached := pc.fip.id;
      assert On(a, detached, port);
      assert forall f :: On(b, f, port) ==> On(a, f, port) && f != detached;
    }
  }

  lemma ScanGood(c: State, e: Event, job: Job, pc: Pc)
    requires pc.Project? || pc.Pool? || pc.Free? || pc.Forwards? || pc.Subnets?
    requires FipSound(c) && FipGood(c, job, pc) && Permits(job, pc, e) && Effect(c, e, c)
    ensures FipGood(c, job, Next(job, pc, e))
  {
    if pc.Free? && e.fips.Answer? {
      assert CandidatesFree(c, e.fips.value, pc.pool, pc.project);
    } else if pc.Forwards? {
      assert CandidatesFree(c, pc.cands[1..], pc.pool, pc.project);
    }
  }

  lemma BindGood(a: State, e: Event, b: State, job: Job, pc: Pc)
    requires Coherent(a) && pc.Bind? && FipGood(a, job, pc) && Permits(job, pc, e) && Effect(a, e, b)
    ensures FipGood(b, job, Next(job, pc, e))
  {
    if e.bound.Answer? {
      assert CandidatesFree(b, pc.cands[1..], pc.pool, pc.project);
      assert BoundHere(b, pc.lb.port, pc.pool, Some(e.bound.value));
    }
  }

  lemma NewFipGood(a: State, e: Event, b: State, job: Job, pc: Pc)
    requires pc.NewFip? && FipGood(a, job, pc) && Permits(job, pc, e) && Effect(a, e, b)
    ensures FipGood(b, job, Next(job, pc, e))
  {
    forall f | On(b, f, pc.lb.port)
      ensures b.fips[f].pool == pc.pool
    {
      assert f == |a.fips| || On(a, f, pc.lb.port);
    }
    if e.obtained.Answer? {
      assert On(b, |a.fips|, pc.lb.port);
    }
  }

  lemma PatchGood(a: State, e: Event, b: State, job: Job, pc: Pc)
    requires pc.Patch? && Good(a, job, pc) && FipGood(a, job, pc) && Permits(job, pc, e) && Effect(a, e, b)
    ensures FipGood(b, job, Next(job, pc, e))
  {
    if e.patched.Answer? {
      assert SparesPort(a, b, pc.lb.port);
      SparedServed(a, b, job, pc.lb.port, pc.addr);
      assert RecordDescribes(b, job, pc.lb.id, pc.addr);
    }
  }

  lemma OwnStepFipGood(a: State, e: Event, b: State, job: Job, pc: Pc)
    requires Coherent(a) && FipSound(a) && Good(a, job, pc) && FipGood(a, job, pc)
    requires Permits(job, pc, e) && Effect(a, e, b)
    ensures FipGood(b, job, Next(job, pc, e))
  {
    if pc.FindFip? {
      FindFipGood(a, e, job, pc);
    } else if pc.Detach? {
      DetachGood(a, e, b, job, pc);
    } else if pc.Bind? {
      BindGood(a, e, b, job, pc);
    } else if pc.NewFip? {
      NewFipGood(a, e, b, job, pc);
    } else if pc.Patch? {
      PatchGood(a, e, b, job, pc);
    } else if InAttach(pc) {
      ScanGood(a, e, job, pc);
    } else {
      EarlyGood(a, e, b, job, pc);
    }
  }

  /** Before AttachFloatingIP, and at the age check, there is little to keep. */
  lemma EarlyGood(a: State, e: Event, b: State, job: Job, pc: Pc)
    requires !InAttach(pc) && !pc.Patch? && Good(a, job, pc) && FipGood(a, job, pc)
    requires Permits(job, pc, e) && Effect(a, e, b)
    ensures FipGood(b, job, Next(job, pc, e))
  {
    var pc' := Next(job, pc, e);
    if pc.Age? {
      assert b == a;
    } else {
      EarlyNext(job, pc, e);
    }
  }

  lemma EarlyNext(job: Job, pc: Pc, e: Event)
    requires !InAttach(pc) && !pc.Patch? && !pc.Age? && Permits(job, pc, e)
    requires !pc.Find? && !pc.Drop? && !pc.AwaitGone? ==> job.op.Reconcile?
    ensures var pc' := Next(job, pc, e);
            pc'.FindFip? || (!InAttach(pc') && !pc'.Age? && !pc'.Patch? && (pc' == Done(true) ==> job.op.Delete?))
  {
  }

  // ---- whole steps and runs ---------------------------------------------------------------

  /** A worker spares the ports of everybody else's load balancers. */
  lemma OtherPortsSpared(a: State, e: Event, b: State, job: Job, pc: Pc, name: string)
    requires FipSound(a) && Good(a, job, pc) && FipGood(a, job, pc) && name != LbName(job.ns) && Managed(name)
    requires Permits(job, pc, e) && Effect(a, e, b)
    ensures forall i :: LiveNamed(a, i, name) ==> SparesPort(a, b, a.lbs[i].port)
  {
    if InAttach(pc) {
      InsideAttach(a, e, b, job, pc);
      forall i | LiveNamed(a, i, name)
        ensures SparesPort(a, b, a.lbs[i].port)
      {
        assert i != pc.lb.id && a.lbs[pc.lb.id].port == pc.lb.port;
        OwnPortSparesOthers(a, b, pc.lb.port, a.lbs[i].port);
      }
    } else {
      OutsideAttach(a, e, b, job, pc);
    }
  }

  lemma OutsideSparesFree(a: State, e: Event, b: State, job: Job, pc: Pc, project: string)
    requires !InAttach(pc) && Permits(job, pc, e) && Effect(a, e, b)
    ensures SparesFree(a, b, project)
  {
    OutsideAttach(a, e, b, job, pc);
    forall f | 0 <= f < |a.fips| && PortOfOurs(b.lbs, b.fips[f].port)
      ensures PortOfOurs(a.lbs, a.fips[f].port)
    {
      var i :| 0 <= i < |b.lbs| && Ours(b.lbs[i]) && b.lbs[i].port == b.fips[f].port;
      assert i < |a.lbs| && a.lbs[i].port == b.lbs[i].port;
    }
  }

  /** A worker binds only floating IPs of the project that it scans. */
  lemma InsideSparesFree(a: State, e: Event, b: State, job: Job, pc: Pc, project: string)
    requires InAttach(pc) && FipSound(a) && FipGood(a, job, pc) && Permits(job, pc, e) && Effect(a, e, b)
    requires !(Scanning(pc) && pc.project == project)
    ensures SparesFree(a, b, project)
  {
    assert !PortOfOurs(a.lbs, "");
  }

  lemma OthersSpareFree(a: State, e: Event, b: State, job: Job, pc: Pc, project: string)
    requires FipSound(a) && FipGood(a, job, pc) && Permits(job, pc, e) && Effect(a, e, b)
    requires !(Scanning(pc) && pc.project == project)
    ensures SparesFree(a, b, project)
  {
    if InAttach(pc) {
      InsideSparesFree(a, e, b, job, pc, project);
    } else {
      OutsideSparesFree(a, e, b, job, pc, project);
    }
  }

  lemma OthersRecordsSpared(a: State, e: Event, b: State, job: Job, pc: Pc, ns: string)
    requires FipGood(a, job, pc) && Permits(job, pc, e) && Effect(a, e, b) && ns != job.ns
    ensures ns in a.records ==> ns in b.records && b.records[ns] == a.records[ns]
  {
    if InAttach(pc) {
      InsideAttach(a, e, b, job, pc);
    } else {
      OutsideAttach(a, e, b, job, pc);
    }
  }

  lemma OthersFipGood(a: State, e: Event, b: State, job: Job, pc: Pc, job': Job, pc': Pc)
    requires FipSound(a) && Good(a, job, pc) && FipGood(a, job, pc)
    requires Good(a, job', pc') && FipGood(a, job', pc') && job.ns != job'.ns
    requires !BothScan(pc, pc')
    requires Permits(job, pc, e) && Effect(a, e, b)
    ensures FipGood(b, job', pc')
  {
    LbNameInjective(job.ns, job'.ns);
    EventIsLocal(a, e, b, job, pc);
    LocalSparesOthers(a, b, LbName(job.ns), LbName(job'.ns));
    OtherPortsSpared(a, e, b, job, pc, LbName(job'.ns));
    OthersRecordsSpared(a, e, b, job, pc, job'.ns);
    if Scanning(pc') {
      OthersSpareFree(a, e, b, job, pc, pc'.project);
    }
    SparedFipGood(a, b, job', pc');
  }

  lemma CreationKeepsSound(a: State, e: Event, b: State, job: Job, pc: Pc)
    requires !InAttach(pc) && FipSound(a) && Permits(job, pc, e) && Effect(a, e, b)
    ensures FipSound(b)
  {
    OutsideAttach(a, e, b, job, pc);
    forall i, f, g | 0 <= i < |b.lbs| && Ours(b.lbs[i]) && On(b, f, b.lbs[i].port) && On(b, g, b.lbs[i].port)
      ensures f == g
    {
      if i < |a.lbs| {
        assert On(a, f, a.lbs[i].port) && On(a, g, a.lbs[i].port);
      }
    }
  }

  lemma StepKeepsFipInv(w: World, l: Label, w': World)
    requires Inv(w) && FipInv(w) && Exclusive(w) && Step(w, l, w')
    ensures FipInv(w')
  {
    match l {
      case Act(ns, e) =>
        var Worker(job, pc) := w.workers[ns];
        if InAttach(pc) {
          OwnStepSound(w.cloud, e, w'.cloud, job, pc);
        } else {
          CreationKeepsSound(w.cloud, e, w'.cloud, job, pc);
        }
        OwnStepFipGood(w.cloud, e, w'.cloud, job, pc);
        forall other | other in w.workers && other != ns
          ensures FipGood(w'.cloud, w.workers[other].job, w.workers[other].pc)
        {
          OthersFipGood(w.cloud, e, w'.cloud, job, pc, w.workers[other].job, w.workers[other].pc);
        }
      case Environment =>
        EnvironmentFips(w.cloud, w'.cloud);
        forall ns | ns in w.workers
          ensures FipGood(w'.cloud, w.workers[ns].job, w.workers[ns].pc)
        {
          EnvironmentSpares(w.cloud, w'.cloud, LbName(ns));
          SparedFipGood(w.cloud, w'.cloud, w.workers[ns].job, w.workers[ns].pc);
        }
      case Start(_, _) =>
      case Stop(_) =>
    }
  }

  /**
    A valid run from a sound supply of floating IPs in which no project's free ones are gone through
    twice at a time.
   */
  ghost predicate ExclusiveRun(r: Run) {
    && ValidRun(r) && FipSound(r.worlds[0].cloud)
    && forall k :: 0 <= k < |r.worlds| ==> Exclusive(r.worlds[k])
  }

  lemma {:induction false} RunKeepsFipInv(r: Run, k: nat)
    requires ExclusiveRun(r) && k < |r.worlds|
    ensures Inv(r.worlds[k]) && FipInv(r.worlds[k])
  {
    RunKeepsInv(r, k);
    if k > 0 {
      RunKeepsFipInv(r, k - 1);
      assert StepAt(r, k - 1);
      StepKeepsFipInv(r.worlds[k - 1], r.labels[k - 1], r.worlds[k]);
    }
  }

  /**
    After every successful Reconcile the stored record names the VIP of the one live load balancer;
    for a private cluster it has no external address and nothing is bound to the VIP port, otherwise
    its external address is the one bound there.
   */
  lemma RecordsAreSound(r: Run, k: nat, ns: string) returns (i: nat)
    requires ExclusiveRun(r) && k < |r.worlds| && ns in r.worlds[k].workers
    requires r.worlds[k].workers[ns].job.op.Reconcile? && r.worlds[k].workers[ns].pc == Done(true)
    ensures var c := r.worlds[k].cloud;
            && LiveNamed(c, i, LbName(ns)) && OnlyLive(c, LbName(ns), i)
            && ns in c.records && c.records[ns].internal == Some(c.lbs[i].vip)
            && c.records[ns].clusterType == (if r.worlds[k].workers[ns].job.private then "Private" else "Public")
            && (c.records[ns].external == None <==> r.worlds[k].workers[ns].job.private)
            && (c.records[ns].external.Some? ==> SomeOn(c, c.lbs[i].port, c.records[ns].external.value))
            && (c.records[ns].external == None ==> NoneOn(c, c.lbs[i].port))
  {
    RunKeepsFipInv(r, k);
    var c, job := r.worlds[k].cloud, r.worlds[k].workers[ns].job;
    assert FipGood(c, job, Done(true));
    var j, addr :| RecordDescribes(c, job, j, addr);
    i := j;
    forall m | LiveNamed(c, m, LbName(ns))
      ensures m == i
    {
      UniqueInEveryRun(r, k, ns, m, i);
    }
    assert |"Public"| != |"Private"|;
  }

  // ---- floating IPs of others -------------------------------------------------------------

  /** It serves another port, or carries port forwardings. */
  predicate Taken(f: Fip) {
    f.port != "" || f.forwards > 0
  }

  ghost predicate OnOwnPort(c: State, name: string, f: Fip) {
    exists i :: LiveNamed(c, i, name) && c.lbs[i].port == f.port
  }

  /** Some floating IP that is taken, and not by the load balancer of this name, changes. */
  ghost predicate TouchesForeign(a: State, b: State, name: string) {
    exists f ::
      && 0 <= f < |a.fips| && f < |b.fips| && b.fips[f] != a.fips[f]
      && Taken(a.fips[f]) && !OnOwnPort(a, name, a.fips[f])
  }

  /**
    No call takes a floating IP away or adds more than one. A worker changes one only if it sits on its
    own load balancer's port, or if the worker listed it as unbound and it is on no live port of the controller's.
   */
  lemma OwnOrListedOnly(r: Run, k: nat)
    requires ExclusiveRun(r) && k < |r.labels| && r.labels[k].Act?
    ensures r.labels[k].ns in r.worlds[k].workers
    ensures var a, b, ns := r.worlds[k].cloud, r.worlds[k + 1].cloud, r.labels[k].ns;
            var pc := r.worlds[k].workers[ns].pc;
            && |a.fips| <= |b.fips| <= |a.fips| + 1
            && forall f :: 0 <= f < |a.fips| && b.fips[f] != a.fips[f] ==>
                 || OnOwnPort(a, LbName(ns), a.fips[f])
                 || (&& pc.Bind? && pc.cands != [] && f == pc.cands[0].id
                     && pc.cands[0].port == "" && !PortOfOurs(a.lbs, a.fips[f].port))
  {
    RunKeepsFipInv(r, k);
    assert StepAt(r, k);
    var Act(ns, e) := r.labels[k];
    var a, b := r.worlds[k].cloud, r.worlds[k + 1].cloud;
    var Worker(job, pc) := r.worlds[k].workers[ns];
    if InAttach(pc) {
      InsideAttach(a, e, b, job, pc);
      assert LiveNamed(a, pc.lb.id, LbName(ns));
      if !pc.Bind? {
        OnlyBindsArrive(a, e, b, job, pc);
      }
    } else {
      OutsideAttach(a, e, b, job, pc);
    }
  }

  lemma OnlyBindsArrive(a: State, e: Event, b: State, job: Job, pc: Pc)
    requires InAttach(pc) && !pc.Bind? && FipGood(a, job, pc) && Permits(job, pc, e) && Effect(a, e, b)
    ensures |a.fips| <= |b.fips|
    ensures forall f :: 0 <= f < |a.fips| && b.fips[f] != a.fips[f] ==> a.fips[f].port == pc.lb.port
  {
  }

  /** A call that took effect has touched a foreign floating IP exactly when it bound one taken since it was listed. */
  lemma ForeignTouchedByCall(r: Run, k: nat)
    requires ExclusiveRun(r) && k < |r.labels| && r.labels[k].Act?
    ensures r.labels[k].ns in r.worlds[k].workers
    ensures var a, b, pc := r.worlds[k].cloud, r.worlds[k + 1].cloud, r.worlds[k].workers[r.labels[k].ns].pc;
            TouchesForeign(a, b, LbName(r.labels[k].ns)) <==>
            && pc.Bind? && b != a && pc.cands != [] && pc.cands[0].id < |a.fips| && Taken(a.fips[pc.cands[0].id])
  {
    OwnOrListedOnly(r, k);
    RunKeepsFipInv(r, k);
    assert StepAt(r, k);
    var Act(ns, e) := r.labels[k];
    var a, b := r.worlds[k].cloud, r.worlds[k + 1].cloud;
    var Worker(job, pc) := r.worlds[k].workers[ns];
    if pc.Bind? && b != a {
      var f := pc.cands[0].id;
      assert b.fips[f].port == pc.lb.port && PortOfOurs(a.lbs, pc.lb.port);
      assert !OnOwnPort(a, LbName(ns), a.fips[f]);
    }
  }

  /** A worker is about to bind an address that has been taken, and the service would let it. */
  ghost predicate AtRisk(c: State, pc: Pc) {
    && pc.Bind? && pc.cands != [] && pc.cands[0].id < |c.fips|
    && var f := pc.cands[0].id;
       Taken(c.fips[f]) && Vacant(c.fips, pc.lb.port, c.fips[f].pool, f)
  }

  lemma TouchNeedsRisk(a: State, e: Event, b: State, job: Job, pc: Pc)
    requires Good(a, job, pc) && FipGood(a, job, pc) && Permits(job, pc, e) && Effect(a, e, b)
    requires TouchesForeign(a, b, LbName(job.ns))
    ensures AtRisk(a, pc)
  {
    if InAttach(pc) {
      InsideAttach(a, e, b, job, pc);
      assert LiveNamed(a, pc.lb.id, LbName(job.ns));
      if !pc.Bind? {
        OnlyBindsArrive(a, e, b, job, pc);
      }
    } else {
      OutsideAttach(a, e, b, job, pc);
    }
  }

  lemma RiskMaterialises(c: State, job: Job, pc: Pc) returns (e: Event, b: State)
    requires FipSound(c) && Good(c, job, pc) && FipGood(c, job, pc) && AtRisk(c, pc)
    ensures Permits(job, pc, e) && Effect(c, e, b) && TouchesForeign(c, b, LbName(job.ns))
  {
    var f, port := pc.cands[0].id, pc.lb.port;
    b := c.(fips := c.fips[f := c.fips[f].(port := port)]);
    e := UpdateFip(f, Some(port), Answer(b.fips[f]));
    assert PortOfOurs(c.lbs, port);
    assert b.fips[f] != c.fips[f] && !OnOwnPort(c, LbName(job.ns), c.fips[f]);
  }

  /**
    In any state of a run, some next call of a worker can touch a foreign floating IP exactly when the
    worker is at risk.
   */
  lemma ForeignTouchedIff(r: Run, k: nat, ns: string)
    requires ExclusiveRun(r) && k < |r.worlds| && ns in r.worlds[k].workers
    ensures var c, job, pc := r.worlds[k].cloud, r.worlds[k].workers[ns].job, r.worlds[k].workers[ns].pc;
            (exists e, b :: Permits(job, pc, e) && Effect(c, e, b) && TouchesForeign(c, b, LbName(ns)))
            <==> AtRisk(c, pc)
  {
    RunKeepsFipInv(r, k);
    var c := r.worlds[k].cloud;
    var Worker(job, pc) := r.worlds[k].workers[ns];
    if AtRisk(c, pc) {
      var e, b := RiskMaterialises(c, job, pc);
    }
    forall e, b | Permits(job, pc, e) && Effect(c, e, b) && TouchesForeign(c, b, LbName(ns))
      ensures AtRisk(c, pc)
    {
      TouchNeedsRisk(c, e, b, job, pc);
    }
  }

  /** In this step others neither bind this floating IP when it is unbound, nor forward its ports. */
  ghost predicate LeavesFree(a: State, b: State, f: nat) {
    f < |a.fips| && f < |b.fips| ==>
      (a.fips[f].port == "" ==> b.fips[f].port == "") && (a.fips[f].forwards == 0 ==> b.fips[f].forwards == 0)
  }

  ghost predicate LeftFree(r: Run, k: nat, f: nat)
    requires k < |r.worlds| == |r.labels| + 1
  {
    forall j :: 0 <= j < k && r.labels[j].Environment? ==> LeavesFree(r.worlds[j].cloud, r.worlds[j + 1].cloud, f)
  }

  /** A worker that has listed this floating IP as unbound, or counted no forwardings, is still right. */
  ghost predicate StillFree(c: State, pc: Pc, f: nat) {
    && (Scanning(pc) && f < |c.fips| ==>
          forall m :: 0 <= m < |pc.cands| && pc.cands[m].id == f && pc.cands[m].port == "" ==> c.fips[f].port == "")
    && (pc.Bind? && pc.cands != [] && pc.cands[0].id == f && f < |c.fips| ==> c.fips[f].forwards == 0)
  }

  lemma ListedStillFree(c: State, e: Event, job: Job, pc: Pc, f: nat)
    requires pc.Free? && Permits(job, pc, e) && Effect(c, e, c)
    ensures StillFree(c, Next(job, pc, e), f)
  {
    if Next(job, pc, e).Forwards? {
      assert AnswersFips(Next(job, pc, e).cands, c.fips, e.query);
    }
  }

  lemma CountedStillFree(c: State, e: Event, job: Job, pc: Pc, f: nat)
    requires pc.Forwards? && StillFree(c, pc, f) && Permits(job, pc, e) && Effect(c, e, c)
    ensures StillFree(c, Next(job, pc, e), f)
  {
    assert forall m :: 0 <= m < |pc.cands| - 1 ==> pc.cands[1..][m] == pc.cands[m + 1];
  }

  lemma BoundStillFree(a: State, e: Event, b: State, job: Job, pc: Pc, f: nat)
    requires pc.Bind? && FipGood(a, job, pc) && StillFree(a, pc, f) && Permits(job, pc, e) && Effect(a, e, b)
    ensures StillFree(b, Next(job, pc, e), f)
  {
    assert forall m :: 0 <= m < |pc.cands| - 1 ==> pc.cands[1..][m] == pc.cands[m + 1];
  }

  lemma OwnStepStillFree(a: State, e: Event, b: State, job: Job, pc: Pc, f: nat)
    requires FipGood(a, job, pc) && StillFree(a, pc, f) && Permits(job, pc, e) && Effect(a, e, b)
    ensures StillFree(b, Next(job, pc, e), f)
  {
    if pc.Free? {
      ListedStillFree(a, e, job, pc, f);
    } else if pc.Forwards? {
      CountedStillFree(a, e, job, pc, f);
    } else if pc.Bind? {
      BoundStillFree(a, e, b, job, pc, f);
    } else {
      assert !Scanning(Next(job, pc, e));
    }
  }

  lemma OthersStillFree(a: State, e: Event, b: State, job: Job, pc: Pc, job': Job, pc': Pc, f: nat)
    requires FipGood(a, job, pc) && FipGood(a, job', pc') && StillFree(a, pc', f)
    requires !BothScan(pc, pc')
    requires Permits(job, pc, e) && Effect(a, e, b)
    ensures StillFree(b, pc', f)
  {
    if InAttach(pc) {
      InsideAttach(a, e, b, job, pc);
    } else {
      OutsideAttach(a, e, b, job, pc);
    }
  }

  lemma ActKeepsFree(w: World, l: Label, w': World, f: nat, ns: string)
    requires FipInv(w) && Exclusive(w) && Step(w, l, w') && l.Act? && ns in w.workers
    requires StillFree(w.cloud, w.workers[ns].pc, f)
    ensures ns in w'.workers && StillFree(w'.cloud, w'.workers[ns].pc, f)
  {
    var Act(other, e) := l;
    var Worker(job, pc) := w.workers[other];
    if other == ns {
      OwnStepStillFree(w.cloud, e, w'.cloud, job, pc, f);
    } else {
      OthersStillFree(w.cloud, e, w'.cloud, job, pc, w.workers[ns].job, w.workers[ns].pc, f);
    }
  }

  lemma StepKeepsFree(w: World, l: Label, w': World, f: nat, ns: string)
    requires FipInv(w) && Exclusive(w) && Step(w, l, w') && ns in w'.workers
    requires ns in w.workers ==> StillFree(w.cloud, w.workers[ns].pc, f)
    requires l.Environment? ==> LeavesFree(w.cloud, w'.cloud, f)
    ensures StillFree(w'.cloud, w'.workers[ns].pc, f)
  {
    if l.Act? {
      ActKeepsFree(w, l, w', f, ns);
    } else if ns in w.workers {
      assert w'.workers[ns] == w.workers[ns];
      if l.Environment? && Scanning(w.workers[ns].pc) {
        assert FipGood(w.cloud, w.workers[ns].job, w.workers[ns].pc);
      }
    }
  }

  lemma {:induction false} RunKeepsFree(r: Run, k: nat, f: nat, ns: string)
    requires ExclusiveRun(r) && k < |r.worlds| && LeftFree(r, k, f) && ns in r.worlds[k].workers
    ensures StillFree(r.worlds[k].cloud, r.worlds[k].workers[ns].pc, f)
  {
    if k > 0 {
      RunKeepsFipInv(r, k - 1);
      if ns in r.worlds[k - 1].workers {
        RunKeepsFree(r, k - 1, f, ns);
      }
      assert StepAt(r, k - 1);
      StepKeepsFree(r.worlds[k - 1], r.labels[k - 1], r.worlds[k], f, ns);
    }
  }

  /**
    As long as others leave unbound floating IPs alone, no worker ever changes one that serves another
    port or carries forwardings.
   */
  lemma ForeignFipsUntouched(r: Run, k: nat)
    requires ExclusiveRun(r) && k < |r.labels| && r.labels[k].Act?
    requires forall f: nat :: LeftFree(r, k, f)
    ensures !TouchesForeign(r.worlds[k].cloud, r.worlds[k + 1].cloud, LbName(r.labels[k].ns))
  {
    ForeignTouchedByCall(r, k);
    var ns := r.labels[k].ns;
    assert StepAt(r, k);
    var pc := r.worlds[k].workers[ns].pc;
    if pc.Bind? && pc.cands != [] {
      RunKeepsFree(r, k, pc.cands[0].id, ns);
      RunKeepsFipInv(r, k);
      assert FipGood(r.worlds[k].cloud, r.worlds[k].workers[ns].job, pc);
    }
  }

  // ---- at most one new floating IP per Reconcile ------------------------------------------

  /** From step `s` to step `k` the worker of this namespace is in one and the same run. */
  ghost predicate OneRunOf(r: Run, s: nat, k: nat, ns: string) {
    && |r.worlds| == |r.labels| + 1
    && s < k < |r.worlds| && r.labels[s].Start? && r.labels[s].ns == ns
    && forall j :: s < j < k ==> r.labels[j] != Stop(ns)
  }

  ghost function AddedIn(w: World, l: Label, w': World, ns: string): int {
    if l.Act? && l.ns == ns then |w'.cloud.fips| - |w.cloud.fips| else 0
  }

  /** How many floating IPs the calls of this namespace's worker have added from one step to another. */
  ghost function AddedBy(r: Run, s: nat, k: nat, ns: string): int
    requires |r.worlds| == |r.labels| + 1 && s <= k < |r.worlds|
  {
    if k == s then 0
    else AddedBy(r, s, k - 1, ns) + AddedIn(r.worlds[k - 1], r.labels[k - 1], r.worlds[k], ns)
  }

  /** After AttachFloatingIP. */
  predicate Ending(pc: Pc) {
    pc.Age? || pc.Patch? || pc.Done?
  }

  /** A floating IP is added only at the end, and one that was added despite an error occupies the port. */
  ghost predicate AdditionFits(c: State, pc: Pc, added: int) {
    0 <= added <= 1 && (added == 1 ==> Ending(pc) || (pc.NewFip? && !NoneOn(c, pc.lb.port)))
  }

  lemma OwnAddition(a: State, e: Event, b: State, job: Job, pc: Pc, added: int)
    requires FipGood(a, job, pc) && AdditionFits(a, pc, added) && Permits(job, pc, e) && Effect(a, e, b)
    ensures AdditionFits(b, Next(job, pc, e), added + |b.fips| - |a.fips|)
  {
    if pc.NewFip? {
      NewFipAddition(a, e, b, job, pc, added);
    } else if added == 0 {
      OnlyNewFipAdds(a, e, b, job, pc);
    } else {
      assert Ending(Next(job, pc, e)) && b.fips == a.fips;
    }
  }

  lemma OnlyNewFipAdds(a: State, e: Event, b: State, job: Job, pc: Pc)
    requires !pc.NewFip? && Permits(job, pc, e) && Effect(a, e, b)
    ensures |b.fips| == |a.fips|
  {
  }

  lemma NewFipAddition(a: State, e: Event, b: State, job: Job, pc: Pc, added: int)
    requires pc.NewFip? && FipGood(a, job, pc) && AdditionFits(a, pc, added) && Permits(job, pc, e) && Effect(a, e, b)
    ensures AdditionFits(b, Next(job, pc, e), added + |b.fips| - |a.fips|)
  {
    if b != a {
      assert On(b, |a.fips|, pc.lb.port);
      forall f
        ensures !On(a, f, pc.lb.port)
      {
      }
    }
  }

  lemma OthersAddition(a: State, b: State, pc: Pc, added: int)
    requires AdditionFits(a, pc, added) && (pc.NewFip? ==> SparesPort(a, b, pc.lb.port))
    ensures AdditionFits(b, pc, added)
  {
    if pc.NewFip? && !NoneOn(a, pc.lb.port) {
      var f :| On(a, f, pc.lb.port);
      assert On(b, f, pc.lb.port);
    }
  }

  lemma OwnPortSpared(w: World, l: Label, w': World, ns: string)
    requires Inv(w) && FipInv(w) && Step(w, l, w') && ns in w.workers && w.workers[ns].pc.NewFip?
    requires l.Act? ==> l.ns != ns
    ensures SparesPort(w.cloud, w'.cloud, w.workers[ns].pc.lb.port)
  {
    var Worker(job, pc) := w.workers[ns];
    assert Good(w.cloud, job, pc);
    match l {
      case Act(other, e) =>
        LbNameInjective(ns, other);
        OtherPortsSpared(w.cloud, e, w'.cloud, w.workers[other].job, w.workers[other].pc, LbName(ns));
      case Environment => EnvironmentFips(w.cloud, w'.cloud);
      case Start(_, _) =>
      case Stop(_) =>
    }
  }

  lemma StepKeepsAddition(w: World, l: Label, w': World, ns: string, added: int)
    requires Inv(w) && FipInv(w) && Step(w, l, w') && ns in w.workers && l != Stop(ns)
    requires AdditionFits(w.cloud, w.workers[ns].pc, added)
    ensures ns in w'.workers && AdditionFits(w'.cloud, w'.workers[ns].pc, added + AddedIn(w, l, w', ns))
  {
    var Worker(job, pc) := w.workers[ns];
    if l.Act? && l.ns == ns {
      OwnAddition(w.cloud, l.event, w'.cloud, job, pc, added);
    } else {
      if pc.NewFip? {
        OwnPortSpared(w, l, w', ns);
      }
      OthersAddition(w.cloud, w'.cloud, pc, added);
    }
  }

  lemma FirstAddition(r: Run, s: nat, ns: string)
    requires Chained(r) && s < |r.labels| && r.labels[s].Start? && r.labels[s].ns == ns
    ensures ns in r.worlds[s + 1].workers
    ensures AdditionFits(r.worlds[s + 1].cloud, r.worlds[s + 1].workers[ns].pc, 0)
  {
    assert StepAt(r, s);
  }

  lemma NextAddition(r: Run, k: nat, ns: string, added: int)
    requires ExclusiveRun(r) && k < |r.labels| && r.labels[k] != Stop(ns) && ns in r.worlds[k].workers
    requires AdditionFits(r.worlds[k].cloud, r.worlds[k].workers[ns].pc, added)
    ensures ns in r.worlds[k + 1].workers
    ensures AdditionFits(r.worlds[k + 1].cloud, r.worlds[k + 1].workers[ns].pc,
                         added + AddedIn(r.worlds[k], r.labels[k], r.worlds[k + 1], ns))
  {
    RunKeepsFipInv(r, k);
    assert StepAt(r, k);
    StepKeepsAddition(r.worlds[k], r.labels[k], r.worlds[k + 1], ns, added);
  }

  lemma {:induction false} RunKeepsAddition(r: Run, s: nat, k: nat, ns: string)
    requires ExclusiveRun(r) && OneRunOf(r, s, k, ns)
    ensures ns in r.worlds[k].workers
    ensures AdditionFits(r.worlds[k].cloud, r.worlds[k].workers[ns].pc, AddedBy(r, s, k, ns))
  {
    if s + 1 < k {
      RunKeepsAddition(r, s, k - 1, ns);
      NextAddition(r, k - 1, ns, AddedBy(r, s, k - 1, ns));
    } else {
      assert AddedBy(r, s, s + 1, ns) == AddedBy(r, s, s, ns);
      FirstAddition(r, s, ns);
    }
  }

  /** However the subnets answer, one run of a worker adds at most one floating IP. */
  lemma AtMostOneAdded(r: Run, s: nat, k: nat, ns: string)
    requires ExclusiveRun(r) && OneRunOf(r, s, k, ns)
    ensures 0 <= AddedBy(r, s, k, ns) <= 1
  {
    RunKeepsAddition(r, s, k, ns);
  }
}
