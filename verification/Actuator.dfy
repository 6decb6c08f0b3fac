// The actuator (pkg/controller/lifecycle/actuator.go): Reconcile, Delete, Restore and Migrate over the
// cloud object, each proved to follow Program and to establish what it is for.
module Actuator {
  import opened Text
  import opened Cidr
  import opened IpSet
  import opened CloudModel
  import opened Program
  import opened Interleaving
  import opened FloatingRuns
  import opened Service
  import opened Waiting
  import opened Balancers
  import opened Attach
  import opened Backoff

  datatype ExtensionSpec = ExtensionSpec(private: bool, allowed: Option<seq<string>>)

  datatype StoredState = Absent | Malformed | Stored(record: Record)

  /** What a run reads from Kubernetes: the cluster, the provider config, the ingress VIPs, the worker network. */
  datatype Inputs = Inputs(cluster: Result<(), ()>, spec: Result<ExtensionSpec, ()>, vips: Result<seq<string>, ()>,
                         workers: Result<string, ()>)

  class Extension {
    const ns: string
    var state: StoredState

    constructor (ns: string, state: StoredState)
      ensures this.ns == ns && this.state == state
    {
      this.ns, this.state := ns, state;
    }
  }

  /** The stored record, an empty one if there is none yet, or an error. */
  function GetExtensionState(state: StoredState): Result<Record, ()> {
    match state
    case Absent => Ok(Record(None, None, ""))
    case Malformed => Err(())
    case Stored(record) => Ok(record)
  }

  // ---- facts that survive from call to call ------------------------------------------------

  ghost predicate LbsKeep(a: State, b: State) {
    && |b.lbs| == |a.lbs|
    && forall i :: 0 <= i < |a.lbs| ==> Keeps(a.lbs[i], b.lbs[i])
  }

  /** The load balancer is there, as remembered, and nothing else of its name is live. */
  ghost predicate Standing(c: State, name: string, lb: Lb) {
    Sees(c, name, lb) && OnlyLive(c, name, lb.id)
  }

  lemma StandingKept(a: State, b: State, name: string, lb: Lb)
    requires Standing(a, name, lb) && LbsKeep(a, b)
    ensures Standing(b, name, lb)
  {
    assert forall i :: 0 <= i < |a.lbs| ==> Keeps(a.lbs[i], b.lbs[i]);
    forall i
      ensures LiveNamed(b, i, name) <==> LiveNamed(a, i, name)
    {
    }
  }

  lemma SoundKept(a: State, b: State)
    requires FipSound(a) && LbsKeep(a, b) && b.fips == a.fips
    ensures FipSound(b)
  {
    assert forall i :: 0 <= i < |a.lbs| ==> Keeps(a.lbs[i], b.lbs[i]);
    forall i, f, g | 0 <= i < |b.lbs| && Ours(b.lbs[i]) && On(b, f, b.lbs[i].port) && On(b, g, b.lbs[i].port)
      ensures f == g
    {
      assert On(a, f, a.lbs[i].port) && On(a, g, a.lbs[i].port);
    }
  }

  lemma SoundGrown(a: State, b: State, name: string)
    requires FipSound(a) && Grew(a, b, name)
    ensures FipSound(b)
  {
    assert forall i :: 0 <= i < |a.lbs| ==> Keeps(a.lbs[i], b.lbs[i]);
    forall i, f, g | 0 <= i < |b.lbs| && Ours(b.lbs[i]) && On(b, f, b.lbs[i].port) && On(b, g, b.lbs[i].port)
      ensures f == g
    {
      if i < |a.lbs| {
        assert On(a, f, a.lbs[i].port) && On(a, g, a.lbs[i].port);
      }
    }
  }

  /** A move onto a port that carried nothing, or off a port, keeps one floating IP per port. */
  lemma SoundMoved(a: State, b: State, port: string, move: Move)
    requires FipSound(a) && LbsKeep(a, b) && port != "" && Applies(move, a.fips, b.fips, port)
    requires move.Attached? || move.Made? ==> NoneOn(a, port)
    ensures FipSound(b)
  {
    assert forall i :: 0 <= i < |a.lbs| ==> Keeps(a.lbs[i], b.lbs[i]);
    forall i, f, g | 0 <= i < |b.lbs| && Ours(b.lbs[i]) && On(b, f, b.lbs[i].port) && On(b, g, b.lbs[i].port)
      ensures f == g
    {
      if b.lbs[i].port == port && (move.Attached? || move.Made?) {
        assert !On(a, f, port) && !On(a, g, port);
      } else {
        assert On(a, f, a.lbs[i].port) && On(a, g, a.lbs[i].port);
      }
    }
  }

  // ---- obtaining an ACTIVE load balancer ---------------------------------------------------

  ghost predicate HasError(c: State, name: string) {
    exists i :: LiveNamed(c, i, name) && c.lbs[i].status.Error?
  }

  /**
    What an ACTIVE load balancer needs so that a run can finish with it: unambiguous listeners, and to
    be healthy or young.
   */
  predicate CanFinish(lb: Lb, clock: Span) {
    DistinctNames(lb.listeners) && Timely(lb, clock)
  }

  /** The one live load balancer, if any, is in ERROR, or is ACTIVE and can be finished with. */
  ghost predicate Ready(c: State, name: string, clock: Span) {
    && FipSound(c)
    && forall i :: LiveNamed(c, i, name) ==>
         && OnlyLive(c, name, i)
         && (c.lbs[i].status.Active? || c.lbs[i].status.Error?)
         && (c.lbs[i].status.Active? ==> CanFinish(c.lbs[i], clock))
  }

  /** ACTIVE, but with ambiguous listeners, or unhealthy and too old. */
  predicate Hopeless(lb: Lb, clock: Span) {
    lb.status.Active? && (!DistinctNames(lb.listeners) || Overdue(lb, clock))
  }

  /** The one live load balancer is beyond help. */
  ghost predicate Stuck(c: State, name: string, clock: Span) {
    exists i :: LiveNamed(c, i, name) && OnlyLive(c, name, i) && Hopeless(c.lbs[i], clock)
  }

  /** When the calls take no time, a namespace without pending status is either ready or stuck. */
  lemma ReadyOrStuck(c: State, name: string, clock: Span)
    requires FipSound(c) && clock.earliest == clock.latest
    requires forall i :: LiveNamed(c, i, name) ==>
               OnlyLive(c, name, i) && (c.lbs[i].status.Active? || c.lbs[i].status.Error?)
    ensures Ready(c, name, clock) <==> !Stuck(c, name, clock)
  {
    if !Ready(c, name, clock) {
      var i :| LiveNamed(c, i, name) && c.lbs[i].status.Active? && !CanFinish(c.lbs[i], clock);
      assert Hopeless(c.lbs[i], clock);
    }
  }

  lemma GrewStanding(a: State, b: State, name: string)
    requires NoneLive(a, name) && Grew(a, b, name) && |b.lbs| > |a.lbs|
    ensures Standing(b, name, b.lbs[|a.lbs|].(id := |a.lbs|))
  {
    assert forall i :: 0 <= i < |a.lbs| ==> Keeps(a.lbs[i], b.lbs[i]);
    forall i | LiveNamed(b, i, name)
      ensures i == |a.lbs|
    {
      if i < |a.lbs| {
        assert LiveNamed(a, i, name);
      }
    }
  }

  lemma PurgedNoneLive(a: State, b: State, name: string, id: nat)
    requires id < |a.lbs| && OnlyLive(a, name, id) && b == WithStatus(a, id, Purged)
    ensures NoneLive(b, name)
  {
    forall i
      ensures !LiveNamed(b, i, name)
    {
      assert LiveNamed(b, i, name) ==> LiveNamed(a, i, name) && i != id;
    }
  }

  method CreateFor(cloud: Cloud, vips: seq<string>, name: string, ranges: IPNet) returns (r: Result<Lb, ()>)
    requires cloud.Valid() && cloud.pc == SubnetOf && name == LbName(cloud.job.ns)
    requires ranges.nets.Keys == cloud.job.ranges && vips == cloud.job.vips && NoneLive(cloud.st, name)
    modifies cloud
    ensures cloud.Valid() && cloud.job == old(cloud.job)
    ensures cloud.pc == if r.Ok? then Listeners(r.value) else Done(false)
    ensures r.Ok? ==> r.value.id < |cloud.st.lbs| && cloud.st.lbs[r.value.id] == r.value && r.value.status == Active
    ensures cloud.alone && FipSound(old(cloud.st)) ==> FipSound(cloud.st)
    ensures cloud.alone && r.Ok? ==> Standing(cloud.st, name, r.value) && NewHere(cloud.st, r.value)
    ensures cloud.cooperative ==> r.Ok? && Timely(r.value, cloud.clock)
  {
    ghost var start := cloud.st;
    r := CreateLoadBalancer(cloud, vips, name, ranges);
    if cloud.alone {
      if FipSound(start) {
        SoundGrown(start, cloud.st, name);
      }
      if r.Ok? {
        GrewStanding(start, cloud.st, name);
        forall f
          ensures !On(cloud.st, f, r.value.port)
        {
        }
      }
    }
  }

  /** A load balancer made in this run: distinct listener names, and nothing on its port yet. */
  ghost predicate NewHere(c: State, lb: Lb) {
    DistinctNames(lb.listeners) && NoneOn(c, lb.port)
  }

  /** Find the load balancer or create it; one in ERROR is deleted, and the run fails. */
  method ObtainLoadbalancer(cloud: Cloud, vips: seq<string>, name: string, ranges: IPNet) returns (r: Result<Lb, ()>)
    requires cloud.Valid() && cloud.pc == Find && cloud.job.op == Op.Reconcile && name == LbName(cloud.job.ns)
    requires ranges.nets.Keys == cloud.job.ranges && vips == cloud.job.vips
    modifies cloud
    ensures cloud.Valid() && cloud.job == old(cloud.job)
    ensures cloud.pc == if r.Ok? then Listeners(r.value) else Done(false)
    ensures r.Ok? ==> r.value.id < |cloud.st.lbs| && cloud.st.lbs[r.value.id] == r.value && r.value.status == Active
    ensures cloud.alone && r.Ok? ==> Standing(cloud.st, name, r.value)
    ensures cloud.alone && FipSound(old(cloud.st)) ==> FipSound(cloud.st)
    ensures cloud.cooperative && Ready(old(cloud.st), name, cloud.clock) && r.Err? ==>
              HasError(old(cloud.st), name) && NoneLive(cloud.st, name)
    ensures cloud.cooperative && Ready(old(cloud.st), name, cloud.clock) && r.Ok? ==>
              && CanFinish(r.value, cloud.clock)
              && (cloud.st == old(cloud.st) || (NoneLive(old(cloud.st), name) && NoneOn(cloud.st, r.value.port)))
    ensures cloud.cooperative && Stuck(old(cloud.st), name, cloud.clock) ==>
              r.Ok? && cloud.st == old(cloud.st) && Hopeless(r.value, cloud.clock)
  {
    ghost var start := cloud.st;
    var found := GetLoadbalancerByName(cloud, name);
    ghost var looked := cloud.st;
    if cloud.alone && FipSound(start) {
      SoundKept(start, looked);
    }
    if found.Err? {
      if found.error != Missing {
        return Err(());
      }
      r := CreateFor(cloud, vips, name, ranges);
      return;
    }
    var lb := found.value;
    if !lb.status.Active? {
      if lb.status.Error? {
        var deleted := DeleteLoadbalancer(cloud, lb);
        if cloud.alone && FipSound(looked) {
          SoundOthersKept(looked, cloud.st, lb.id);
        }
        if cloud.cooperative {
          PurgedNoneLive(looked, cloud.st, name, lb.id);
        }
      }
      return Err(());
    }
    return Ok(lb);
  }

  lemma SoundOthersKept(a: State, b: State, id: nat)
    requires FipSound(a) && OthersKept(a, b, id)
    ensures FipSound(b)
  {
    forall i, f, g | 0 <= i < |b.lbs| && Ours(b.lbs[i]) && On(b, f, b.lbs[i].port) && On(b, g, b.lbs[i].port)
      ensures f == g
    {
      assert On(a, f, a.lbs[i].port) && On(a, g, a.lbs[i].port);
    }
  }

  // ---- the end of a run --------------------------------------------------------------------

  /**
    The run fails exactly when the load balancer is unhealthy and, by the clock read, older than the
    operating timeout.
   */
  method CheckAge(cloud: Cloud, lb: Lb, addr: string) returns (ok: bool, ghost now: int)
    requires cloud.Valid() && cloud.pc == Settled(lb, addr)
    modifies cloud
    ensures cloud.Valid() && cloud.job == old(cloud.job)
    ensures cloud.pc == if ok then Patch(lb, addr) else Done(false)
    ensures lb.oper == OperError || lb.oper == Offline ==>
              cloud.log == old(cloud.log) + [ReadClock(now)] && (ok <==> lb.created >= now - 900)
    ensures lb.oper != OperError && lb.oper != Offline ==> ok && cloud.log == old(cloud.log)
    ensures cloud.alone ==> Drift(old(cloud.st), cloud.st)
    ensures !Unhealthy(lb) || cloud.cooperative ==> cloud.st == old(cloud.st)
    ensures Unhealthy(lb) && cloud.cooperative ==> cloud.clock.earliest <= now <= cloud.clock.latest
  {
    if lb.oper.OperError? || lb.oper.Offline? {
      var time := cloud.ReadClock();
      if lb.created < time - OPERATING_TIMEOUT {
        return false, time;
      }
      return true, time;
    }
    return true, 0;
  }

  method UpdateStatus(cloud: Cloud, ex: Extension, record: Record, ghost lb: Lb, ghost addr: string)
    returns (r: Result<(), ()>)
    requires cloud.Valid() && cloud.pc == Patch(lb, addr) && ex.ns == cloud.job.ns
    requires record == RecordFor(cloud.job, lb, addr)
    modifies cloud, ex`state
    ensures cloud.Valid() && cloud.job == old(cloud.job) && cloud.pc == Done(r.Ok?)
    ensures ex.state == Stored(record)
    ensures cloud.alone ==> Finishes(old(cloud.st), cloud.st) && OwnRecordOnly(old(cloud.st), cloud.st, ex.ns, record)
    ensures r.Ok? ==> ex.ns in cloud.st.records && cloud.st.records[ex.ns] == record
    ensures cloud.cooperative ==> r.Ok? && cloud.st.lbs == old(cloud.st).lbs
  {
    ex.state := Stored(record);
    var patched := cloud.PatchStatus(ex.ns, record);
    if cloud.alone {
      assert forall i :: 0 <= i < |cloud.seen.lbs| ==> Keeps(old(cloud.st).lbs[i], cloud.seen.lbs[i]);
    }
    if !patched.Answer? {
      return Err(());
    }
    return Ok(());
  }

  /** The records stay as they were, or this one was stored. */
  ghost predicate OwnRecordOnly(a: State, b: State, ns: string, record: Record) {
    b.records == a.records || b.records == a.records[ns := record]
  }

  /** Only statuses and records differ. */
  ghost predicate Finishes(a: State, b: State) {
    && b.fips == a.fips && LbsKeep(a, b)
    && forall i :: 0 <= i < |a.lbs| ==> b.lbs[i].listeners == a.lbs[i].listeners
  }

  /** What a successful Reconcile has achieved for the load balancer with this identifier. */
  ghost predicate Reconciled(c: State, job: Job, id: nat, addr: string, allowed: Option<seq<string>>, workers: string) {
    && OnlyLive(c, LbName(job.ns), id)
    && RecordDescribes(c, job, id, addr)
    && AdmitsWanted(c.lbs[id].listeners, allowed, workers)
  }

  /** Every listener admits exactly the wanted addresses. */
  ghost predicate AdmitsWanted(ls: seq<Listener>, allowed: Option<seq<string>>, workers: string) {
    forall k, a: nat :: 0 <= k < |ls| ==> (ListAdmits(Elems(ls[k].cidrs), a) <==> Wanted(allowed, workers, a))
  }

  /** The age check, the record, and its persistence. */
  method FinishRun(cloud: Cloud, ex: Extension, private: bool, stored: Record, lb: Lb, floatIP: string)
    returns (r: Result<(), ()>)
    requires cloud.Valid() && cloud.pc == Settled(lb, floatIP) && ex.ns == cloud.job.ns && private == cloud.job.private
    modifies cloud, ex`state
    ensures cloud.Valid() && cloud.job == old(cloud.job) && cloud.pc == Done(r.Ok?)
    ensures r.Ok? ==>
              && ex.state == Stored(RecordFor(cloud.job, lb, floatIP))
              && ex.ns in cloud.st.records && cloud.st.records[ex.ns] == RecordFor(cloud.job, lb, floatIP)
    ensures ex.state == old(ex.state) || ex.state.Stored?
    ensures cloud.alone ==> Finishes(old(cloud.st), cloud.st)
    ensures cloud.alone ==> OwnRecordOnly(old(cloud.st), cloud.st, ex.ns, RecordFor(cloud.job, lb, floatIP))
    ensures cloud.cooperative ==> cloud.st.lbs == old(cloud.st).lbs
    ensures cloud.cooperative && Timely(lb, cloud.clock) ==> r.Ok?
    ensures cloud.cooperative && Overdue(lb, cloud.clock) ==> r.Err?
  {
    var ok, now := CheckAge(cloud, lb, floatIP);
    if !ok {
      return Err(());
    }
    ghost var aged := cloud.st;
    var extState := stored;
    if private {
      extState := extState.(clusterType := "Private");
      extState := extState.(internal := Some(lb.vip));
      extState := extState.(external := None);
    } else {
      extState := extState.(clusterType := "Public");
      extState := extState.(internal := Some(lb.vip));
      extState := extState.(external := Some(floatIP));
    }
    r := UpdateStatus(cloud, ex, extState, lb, floatIP);
    if cloud.alone {
      assert forall i :: 0 <= i < |aged.lbs| ==> Keeps(aged.lbs[i], cloud.st.lbs[i]);
    }
  }

  lemma AlignedAdmits(was: seq<Listener>, now: seq<Listener>, keys: set<string>, allowed: Option<seq<string>>,
                      workers: string)
    requires Aligned(was, now, |was|, keys) && keys != {}
    requires forall a: nat :: ListAdmits(keys, a) <==> Wanted(allowed, workers, a)
    ensures AdmitsWanted(now, allowed, workers)
  {
  }

  lemma AddressServed(a: State, b: State, job: Job, lb: Lb, addr: string, move: Move)
    requires FipSound(a) && lb.id < |a.lbs| && Ours(a.lbs[lb.id]) && a.lbs[lb.id].port == lb.port
    requires job.private ==> addr == lb.vip && (NoneOn(b, lb.port) <==> AtMostOneOn(a, lb.port))
    requires !job.private ==> SomeOn(b, lb.port, addr)
    ensures Served(b, job, lb.port, addr)
  {
  }

  lemma FinishedIsReconciled(b: State, c: State, job: Job, lb: Lb, addr: string, allowed: Option<seq<string>>,
                             workers: string)
    requires Standing(b, LbName(job.ns), lb) && Served(b, job, lb.port, addr) && Finishes(b, c)
    requires AdmitsWanted(b.lbs[lb.id].listeners, allowed, workers)
    requires job.ns in c.records && c.records[job.ns] == RecordFor(job, lb, addr)
    ensures Reconciled(c, job, lb.id, addr, allowed, workers)
  {
    StandingKept(b, c, LbName(job.ns), lb);
    assert forall f :: On(c, f, lb.port) <==> On(b, f, lb.port);
  }

  ghost predicate HasServed(c: State, job: Job) {
    exists i :: LiveNamed(c, i, LbName(job.ns)) && c.lbs[i].status.Active? && (job.private || !NoneOn(c, c.lbs[i].port))
  }

  lemma BoundIsServed(b: State, c: State, job: Job, lb: Lb, move: Move, clock: Span)
    requires FipSound(c) && Standing(c, LbName(job.ns), lb)
    requires c.lbs == b.lbs && b.lbs[lb.id] == lb && lb.status.Active? && CanFinish(lb, clock)
    requires Applies(move, b.fips, c.fips, lb.port) && move.Attached?
    ensures Ready(c, LbName(job.ns), clock) && HasServed(c, job)
  {
    assert On(c, move.fip, lb.port);
    assert LiveNamed(c, lb.id, LbName(job.ns));
  }

  lemma ChangedOnlyBy(a: State, b: State)
    requires Drift(a, b) || LbsDrift(a, b) || exists id :: Tends(a, b, id)
    ensures LbsKeep(a, b)
  {
    if Drift(a, b) {
    } else if LbsDrift(a, b) {
    } else {
      var id :| Tends(a, b, id);
    }
  }

  /** CheckLoadBalancer, with what it means for the load balancer of this namespace. */
  method Align(cloud: Cloud, lb: Lb, ranges: IPNet, ghost allowed: Option<seq<string>>, ghost workers: string)
    returns (r: Result<Lb, ()>)
    requires cloud.Valid() && cloud.pc == Listeners(lb)
    requires ranges.nets.Keys == cloud.job.ranges != {}
    requires forall a: nat :: ListAdmits(cloud.job.ranges, a) <==> Wanted(allowed, workers, a)
    requires lb.id < |cloud.st.lbs| && cloud.st.lbs[lb.id] == lb
    modifies cloud
    ensures cloud.Valid() && cloud.job == old(cloud.job)
    ensures cloud.pc == if r.Ok? then FindFip(r.value) else Done(false)
    ensures cloud.alone && FipSound(old(cloud.st)) && Standing(old(cloud.st), LbName(cloud.job.ns), lb) && r.Ok? ==>
              && r.value.id == lb.id && Standing(cloud.st, LbName(cloud.job.ns), r.value) && FipSound(cloud.st)
              && AdmitsWanted(cloud.st.lbs[lb.id].listeners, allowed, workers)
              && r.value.port == lb.port && (NoneOn(cloud.st, lb.port) ==> NoneOn(old(cloud.st), lb.port))
    ensures cloud.alone && Standing(old(cloud.st), LbName(cloud.job.ns), lb) ==>
              Standing(cloud.st, LbName(cloud.job.ns), lb) && SameNames(lb.listeners, cloud.st.lbs[lb.id].listeners)
    ensures cloud.cooperative && Standing(old(cloud.st), LbName(cloud.job.ns), lb) && lb.status.Active? ==>
              && (r.Ok? <==> DistinctNames(lb.listeners)) && (r.Ok? ==> cloud.st.lbs[lb.id] == r.value)
              && cloud.st.lbs[lb.id].status.Active? && cloud.st.lbs[lb.id].oper == lb.oper
  {
    ghost var start, name := cloud.st, LbName(cloud.job.ns);
    r := CheckLoadBalancer(cloud, lb, ranges);
    if cloud.alone && Standing(start, name, lb) {
      ChangedOnlyBy(start, cloud.st);
      StandingKept(start, cloud.st, name, lb);
    }
    if cloud.alone && FipSound(start) && Standing(start, name, lb) && r.Ok? {
      SoundKept(start, cloud.st);
      AlignedAdmits(lb.listeners, cloud.st.lbs[lb.id].listeners, cloud.job.ranges, allowed, workers);
      SameFips(start, cloud.st, lb.port);
    }
  }

  lemma StillStuck(a: State, b: State, name: string, lb: Lb, clock: Span)
    requires Standing(a, name, lb) && Standing(b, name, lb) && b.lbs[lb.id].status.Active?
    requires b.lbs[lb.id].oper == lb.oper && SameNames(lb.listeners, b.lbs[lb.id].listeners)
    requires Hopeless(lb, clock)
    ensures Stuck(b, name, clock)
  {
    assert LiveNamed(b, lb.id, name) && Hopeless(b.lbs[lb.id], clock);
  }

  lemma StuckByLbs(a: State, b: State, name: string, clock: Span)
    requires Stuck(a, name, clock) && b.lbs == a.lbs
    ensures Stuck(b, name, clock)
  {
    assert forall i :: LiveNamed(b, i, name) <==> LiveNamed(a, i, name);
  }

  /** From a checked load balancer to the persisted record. */
  method Serve(cloud: Cloud, ex: Extension, private: bool, stored: Record, lb: Lb,
               ghost allowed: Option<seq<string>>, ghost workers: string)
    returns (r: Result<(), ()>, ghost addr: string)
    requires cloud.Valid() && cloud.pc == FindFip(lb) && ex.ns == cloud.job.ns && private == cloud.job.private
    modifies cloud, ex`state
    ensures cloud.Valid() && cloud.job == old(cloud.job) && cloud.pc == Done(r.Ok?)
    ensures r.Ok? ==> ex.ns in cloud.st.records && ex.state == Stored(cloud.st.records[ex.ns])
    ensures ex.state == old(ex.state) || ex.state.Stored?
    ensures cloud.alone && FipSound(old(cloud.st)) && Standing(old(cloud.st), LbName(ex.ns), lb)
            && AdmitsWanted(old(cloud.st).lbs[lb.id].listeners, allowed, workers) && r.Ok? ==>
              Reconciled(cloud.st, cloud.job, lb.id, addr, allowed, workers)
    ensures cloud.cooperative && FipSound(old(cloud.st)) && Standing(old(cloud.st), LbName(ex.ns), lb)
            && old(cloud.st).lbs[lb.id] == lb && lb.status.Active? && CanFinish(lb, cloud.clock) && r.Err? ==>
              && !cloud.job.private && NoneOn(old(cloud.st), lb.port)
              && Ready(cloud.st, LbName(ex.ns), cloud.clock) && HasServed(cloud.st, cloud.job)
    ensures cloud.cooperative ==> cloud.st.lbs == old(cloud.st).lbs && (Overdue(lb, cloud.clock) ==> r.Err?)
  {
    ghost var start, name := cloud.st, LbName(ex.ns);
    ghost var mine := cloud.alone && FipSound(start) && Standing(start, name, lb);
    addr := "";
    var address, move := AttachFloatingIP(cloud, lb, private);
    ghost var attached := cloud.st;
    if mine {
      ChangedOnlyBy(start, attached);
      StandingKept(start, attached, name, lb);
      SoundMoved(start, attached, lb.port, move);
    }
    if address.Err? {
      if mine && cloud.cooperative && start.lbs[lb.id] == lb && lb.status.Active? && CanFinish(lb, cloud.clock) {
        BoundIsServed(start, attached, cloud.job, lb, move, cloud.clock);
      }
      return Err(()), addr;
    }
    addr := address.value;
    if mine {
      AddressServed(start, attached, cloud.job, lb, addr, move);
    }
    r := FinishRun(cloud, ex, private, stored, lb, address.value);
    if mine && AdmitsWanted(start.lbs[lb.id].listeners, allowed, workers) && r.Ok? {
      FinishedIsReconciled(attached, cloud.st, cloud.job, lb, addr, allowed, workers);
    }
  }

  /** From an ACTIVE load balancer to the persisted record. */
  method Tend(cloud: Cloud, ex: Extension, private: bool, stored: Record, lb: Lb, ranges: IPNet,
              ghost allowed: Option<seq<string>>, ghost workers: string)
    returns (r: Result<(), ()>, ghost addr: string)
    requires cloud.Valid() && cloud.pc == Listeners(lb) && ex.ns == cloud.job.ns && private == cloud.job.private
    requires ranges.nets.Keys == cloud.job.ranges != {}
    requires forall a: nat :: ListAdmits(cloud.job.ranges, a) <==> Wanted(allowed, workers, a)
    requires lb.id < |cloud.st.lbs| && cloud.st.lbs[lb.id] == lb
    modifies cloud, ex`state
    ensures cloud.Valid() && cloud.job == old(cloud.job) && cloud.pc == Done(r.Ok?)
    ensures r.Ok? ==> ex.ns in cloud.st.records && ex.state == Stored(cloud.st.records[ex.ns])
    ensures ex.state == old(ex.state) || ex.state.Stored?
    ensures cloud.alone && FipSound(old(cloud.st)) && Standing(old(cloud.st), LbName(ex.ns), lb) && r.Ok? ==>
              Reconciled(cloud.st, cloud.job, lb.id, addr, allowed, workers)
    ensures cloud.cooperative && FipSound(old(cloud.st)) && Standing(old(cloud.st), LbName(ex.ns), lb)
            && lb.status.Active? && CanFinish(lb, cloud.clock) && r.Err? ==>
              && !cloud.job.private && NoneOn(old(cloud.st), lb.port)
              && Ready(cloud.st, LbName(ex.ns), cloud.clock) && HasServed(cloud.st, cloud.job)
    ensures cloud.cooperative && Standing(old(cloud.st), LbName(ex.ns), lb) && Hopeless(lb, cloud.clock) ==>
              r.Err? && Stuck(cloud.st, LbName(ex.ns), cloud.clock)
  {
    ghost var start, name := cloud.st, LbName(ex.ns);
    ghost var hopeless := cloud.cooperative && Standing(start, name, lb) && Hopeless(lb, cloud.clock);
    addr := "";
    var checked := Align(cloud, lb, ranges, allowed, workers);
    if hopeless {
      StillStuck(start, cloud.st, name, lb, cloud.clock);
    }
    if checked.Err? {
      return Err(()), addr;
    }
    ghost var aligned := cloud.st;
    r, addr := Serve(cloud, ex, private, stored, checked.value, allowed, workers);
    if hopeless {
      StuckByLbs(aligned, cloud.st, name, cloud.clock);
    }
  }

  // ---- Reconcile ---------------------------------------------------------------------------

  /** A run that reads its inputs without error and finds only well-formed ranges. */
  predicate Usable(ex: Extension, inputs: Inputs)
    reads ex
  {
    && inputs.cluster.Ok? && inputs.spec.Ok? && inputs.vips.Ok? && inputs.workers.Ok? && !ex.state.Malformed?
  }

  ghost predicate WellFormed(inputs: Inputs) {
    inputs.spec.Ok? && inputs.workers.Ok? &&
    forall s :: s in Requested(inputs.spec.value.allowed, inputs.workers.value) ==> Written(s).Some?
  }

  /** How many more failing runs a cooperative cloud may still see. */
  ghost function Rank(c: State, ns: string, private: bool): nat {
    if HasError(c, LbName(ns)) then 2
    else if HasServed(c, Job(Op.Reconcile, ns, private, {}, [])) then 0
    else 1
  }

  /**
    What runs lead to: whenever the live load balancer of a namespace, if any, is in ERROR, or is ACTIVE
    and can be finished with, the namespace is ready. The rest of Ready holds in every state of every run.
   */
  lemma ReachedIsReady(r: Run, k: nat, ns: string, clock: Span)
    requires ExclusiveRun(r) && k < |r.worlds|
    requires forall i :: LiveNamed(r.worlds[k].cloud, i, LbName(ns)) ==>
               var lb := r.worlds[k].cloud.lbs[i];
               lb.status.Error? || (lb.status.Active? && CanFinish(lb, clock))
    ensures Ready(r.worlds[k].cloud, LbName(ns), clock)
  {
    RunKeepsFipInv(r, k);
    forall i, j | LiveNamed(r.worlds[k].cloud, i, LbName(ns)) && LiveNamed(r.worlds[k].cloud, j, LbName(ns))
      ensures i == j
    {
      UniqueInEveryRun(r, k, ns, i, j);
    }
  }

  /** The run works for what the inputs ask for. */
  ghost predicate JobFits(job: Job, inputs: Inputs) {
    && inputs.spec.Ok? && inputs.vips.Ok? && inputs.workers.Ok?
    && job.private == inputs.spec.value.private && job.vips == inputs.vips.value && job.ranges != {}
    && forall a: nat :: ListAdmits(job.ranges, a) <==> Wanted(inputs.spec.value.allowed, inputs.workers.value, a)
  }

  /** Three listeners, open to the wanted addresses, each in front of all ingress VIPs on its own port. */
  ghost predicate SpecsFit(specs: seq<ListenerSpec>, name: string, vips: seq<string>, allowed: Option<seq<string>>,
                           workers: string) {
    && |specs| == 3 && specs[0].port == 443 && specs[1].port == 8443 && specs[2].port == 8132
    && specs[0].name == name + "-443" && specs[1].name == name + "-8443" && specs[2].name == name + "-8132"
    && forall j :: 0 <= j < 3 ==>
         && |specs[j].members| == |vips|
         && (forall i :: 0 <= i < |vips| ==>
               specs[j].members[i].address == vips[i] && specs[j].members[i].port == specs[j].port)
         && forall a: nat :: ListAdmits(Elems(specs[j].cidrs), a) <==> Wanted(allowed, workers, a)
  }

  /** Whatever load balancer was asked for bears the name of the namespace and is as configured. */
  ghost predicate CreationsFit(log: seq<Event>, ns: string, inputs: Inputs)
    requires inputs.spec.Ok? && inputs.vips.Ok? && inputs.workers.Ok?
  {
    forall k :: 0 <= k < |log| && log[k].CreateLb? ==>
      && log[k].name == "private_network-" + ns
      && SpecsFit(log[k].specs, log[k].name, inputs.vips.value, inputs.spec.value.allowed, inputs.workers.value)
  }

  lemma SpecsAsConfigured(specs: seq<ListenerSpec>, name: string, ranges: set<string>, vips: seq<string>,
                          allowed: Option<seq<string>>, workers: string)
    requires ListenersFit(specs, name, vips, ranges)
    requires forall a: nat :: ListAdmits(ranges, a) <==> Wanted(allowed, workers, a)
    ensures SpecsFit(specs, name, vips, allowed, workers)
  {
    assert Decimal(443) == "443" && Decimal(8443) == "8443" && Decimal(8132) == "8132";
    assert forall j :: 0 <= j < 3 ==> ListenerFits(specs[j], name, vips, ranges, PORTS[j]);
  }

  lemma CreationsAsConfigured(job: Job, log: seq<Event>, inputs: Inputs)
    requires Path(job, Find, log) && JobFits(job, inputs)
    ensures CreationsFit(log, job.ns, inputs)
  {
    PathCreates(job, Find, log);
    LbNameInjective(job.ns, job.ns);
    forall k | 0 <= k < |log| && log[k].CreateLb?
      ensures SpecsFit(log[k].specs, log[k].name, inputs.vips.value, inputs.spec.value.allowed, inputs.workers.value)
    {
      SpecsAsConfigured(log[k].specs, log[k].name, job.ranges, job.vips, inputs.spec.value.allowed,
                        inputs.workers.value);
    }
  }

  /** A run for this namespace that has come to its end; it is successful only if all its calls were. */
  ghost predicate Ended(op: Op, ns: string, job: Job, pc: Pc, log: seq<Event>, ok: bool) {
    && job.op == op && job.ns == ns && pc == Done(ok)
    && (ok ==> forall k :: 0 <= k < |log| ==> Heeded(job, log[k]))
  }

  /** Reconcile once all inputs are read: the part that talks to the cloud. */
  method RunReconcile(cloud: Cloud, ex: Extension, spec: ExtensionSpec, stored: Record, vips: seq<string>,
                      ghost workers: string, ranges: IPNet)
    returns (r: Result<(), ()>, ghost id: nat, ghost addr: string)
    requires cloud.Valid() && cloud.pc == Find
    requires cloud.job == Job(Op.Reconcile, ex.ns, spec.private, ranges.nets.Keys, vips) && ranges.nets.Keys != {}
    requires forall a: nat :: ListAdmits(ranges.nets.Keys, a) <==> Wanted(spec.allowed, workers, a)
    modifies cloud, ex`state
    ensures cloud.Valid() && cloud.job == old(cloud.job) && cloud.pc == Done(r.Ok?)
    ensures r.Ok? ==> ex.ns in cloud.st.records && ex.state == Stored(cloud.st.records[ex.ns])
    ensures ex.state == old(ex.state) || ex.state.Stored?
    ensures cloud.alone && FipSound(old(cloud.st)) && r.Ok? ==>
              Reconciled(cloud.st, cloud.job, id, addr, spec.allowed, workers)
    ensures cloud.cooperative && Ready(old(cloud.st), LbName(ex.ns), cloud.clock) && r.Err? ==>
              && Ready(cloud.st, LbName(ex.ns), cloud.clock)
              && Rank(cloud.st, ex.ns, spec.private) < Rank(old(cloud.st), ex.ns, spec.private)
    ensures cloud.cooperative && Stuck(old(cloud.st), LbName(ex.ns), cloud.clock) ==>
              r.Err? && Stuck(cloud.st, LbName(ex.ns), cloud.clock)
  {
    id, addr := 0, "";
    ghost var start, name := cloud.st, LbName(ex.ns);
    var nameLB := LbName(ex.ns);
    var loadbalancer := ObtainLoadbalancer(cloud, vips, nameLB, ranges);
    ghost var obtained := cloud.st;
    if loadbalancer.Err? {
      if cloud.cooperative && Ready(start, name, cloud.clock) {
        ErrorRank(start, obtained, ex.ns, spec.private, cloud.clock);
      }
      return Err(()), id, addr;
    }
    var lb := loadbalancer.value;
    id := lb.id;
    r, addr := Tend(cloud, ex, spec.private, stored, lb, ranges, spec.allowed, workers);
    if r.Err? && cloud.cooperative && Ready(start, name, cloud.clock) {
      TendRank(start, obtained, cloud.st, cloud.job, lb, cloud.clock);
    }
  }

  lemma ErrorRank(a: State, b: State, ns: string, private: bool, clock: Span)
    requires HasError(a, LbName(ns)) && NoneLive(b, LbName(ns)) && FipSound(b)
    ensures Ready(b, LbName(ns), clock) && Rank(b, ns, private) < Rank(a, ns, private)
  {
  }

  /**
    Whatever else happens, the calls follow Program. Alone on the cloud, success means that the one
    live load balancer of the namespace admits exactly the wanted addresses on every listener and that
    the stored record describes it. On a cooperative cloud a failing run makes the rank smaller.
   */
  method Reconcile(cloud: Cloud, ex: Extension, inputs: Inputs)
    returns (r: Result<(), ()>, ghost id: nat, ghost addr: string)
    requires cloud.Valid()
    modifies cloud, ex`state
    ensures cloud.Valid()
    ensures if old(Usable(ex, inputs)) && WellFormed(inputs) then
              && Ended(Op.Reconcile, ex.ns, cloud.job, cloud.pc, cloud.log, r.Ok?)
              && JobFits(cloud.job, inputs) && CreationsFit(cloud.log, ex.ns, inputs)
            else
              r.Err? && unchanged(cloud) && ex.state == old(ex.state)
    ensures Path(cloud.job, Find, cloud.log) && After(cloud.job, Find, cloud.log) == cloud.pc
    ensures r.Ok? ==> JobFits(cloud.job, inputs)
    ensures r.Ok? ==> ex.ns in cloud.st.records && ex.state == Stored(cloud.st.records[ex.ns])
    ensures cloud.alone && FipSound(old(cloud.st)) && r.Ok? ==>
              Reconciled(cloud.st, cloud.job, id, addr, inputs.spec.value.allowed, inputs.workers.value)
    ensures cloud.cooperative && old(Usable(ex, inputs)) && WellFormed(inputs)
            && Ready(old(cloud.st), LbName(ex.ns), cloud.clock) && r.Err? ==>
              && Ready(cloud.st, LbName(ex.ns), cloud.clock) && Usable(ex, inputs)
              && (var private := inputs.spec.value.private;
                  Rank(cloud.st, ex.ns, private) < Rank(old(cloud.st), ex.ns, private))
    ensures cloud.cooperative && Stuck(old(cloud.st), LbName(ex.ns), cloud.clock) ==>
              r.Err? && Stuck(cloud.st, LbName(ex.ns), cloud.clock)
  {
    id, addr := 0, "";
    if inputs.cluster.Err? || inputs.spec.Err? {
      return Err(()), id, addr;
    }
    var spec := inputs.spec.value;
    var extState := GetExtensionState(ex.state);
    if extState.Err? {
      return Err(()), id, addr;
    }
    if inputs.vips.Err? || inputs.workers.Err? {
      return Err(()), id, addr;
    }
    var allowRangeCIDRs := GetLoadBalancerSourceRanges(spec.allowed, inputs.workers.value);
    if allowRangeCIDRs.Err? {
      return Err(()), id, addr;
    }
    var ranges := allowRangeCIDRs.value;
    assert ranges.nets.Keys != {} by { assert exists k :: k in ranges.nets; }
    cloud.Begin(Job(Op.Reconcile, ex.ns, spec.private, ranges.nets.Keys, inputs.vips.value));
    r, id, addr := RunReconcile(cloud, ex, spec, extState.value, inputs.vips.value, inputs.workers.value, ranges);
    assert Path(cloud.job, Find, cloud.log) && After(cloud.job, Find, cloud.log) == cloud.pc;
    CreationsAsConfigured(cloud.job, cloud.log, inputs);
    if r.Ok? {
      ErrorsAreReported(cloud.job, Find, cloud.log);
    }
  }

  lemma TendRank(a: State, b: State, c: State, job: Job, lb: Lb, clock: Span)
    requires Ready(a, LbName(job.ns), clock) && Standing(b, LbName(job.ns), lb) && b.lbs[lb.id] == lb
    requires lb.status.Active?
    requires b == a || NoneLive(a, LbName(job.ns))
    requires !job.private && NoneOn(b, lb.port)
    requires Ready(c, LbName(job.ns), clock) && HasServed(c, job)
    ensures Rank(c, job.ns, job.private) < Rank(a, job.ns, job.private)
  {
    var name := LbName(job.ns);
    assert HasServed(c, Job(Op.Reconcile, job.ns, job.private, {}, []));
    assert !HasError(c, name) by {
      var i :| LiveNamed(c, i, name) && c.lbs[i].status.Active?;
      assert forall j :: LiveNamed(c, j, name) ==> j == i;
    }
    if b == a {
      assert forall j :: LiveNamed(a, j, name) ==> j == lb.id;
    }
    assert !HasServed(a, Job(Op.Reconcile, job.ns, job.private, {}, []));
  }

  /** Restore is Reconcile. */
  method Restore(cloud: Cloud, ex: Extension, inputs: Inputs)
    returns (r: Result<(), ()>, ghost id: nat, ghost addr: string)
    requires cloud.Valid()
    modifies cloud, ex`state
    ensures cloud.Valid()
    ensures if old(Usable(ex, inputs)) && WellFormed(inputs) then
              && Ended(Op.Reconcile, ex.ns, cloud.job, cloud.pc, cloud.log, r.Ok?)
              && JobFits(cloud.job, inputs) && CreationsFit(cloud.log, ex.ns, inputs)
            else
              r.Err? && unchanged(cloud) && ex.state == old(ex.state)
    ensures Path(cloud.job, Find, cloud.log) && After(cloud.job, Find, cloud.log) == cloud.pc
    ensures r.Ok? ==> JobFits(cloud.job, inputs)
    ensures r.Ok? ==> ex.ns in cloud.st.records && ex.state == Stored(cloud.st.records[ex.ns])
    ensures cloud.alone && FipSound(old(cloud.st)) && r.Ok? ==>
              Reconciled(cloud.st, cloud.job, id, addr, inputs.spec.value.allowed, inputs.workers.value)
    ensures cloud.cooperative && old(Usable(ex, inputs)) && WellFormed(inputs)
            && Ready(old(cloud.st), LbName(ex.ns), cloud.clock) && r.Err? ==>
              && Ready(cloud.st, LbName(ex.ns), cloud.clock) && Usable(ex, inputs)
              && (var private := inputs.spec.value.private;
                  Rank(cloud.st, ex.ns, private) < Rank(old(cloud.st), ex.ns, private))
    ensures cloud.cooperative && Stuck(old(cloud.st), LbName(ex.ns), cloud.clock) ==>
              r.Err? && Stuck(cloud.st, LbName(ex.ns), cloud.clock)
  {
    r, id, addr := Reconcile(cloud, ex, inputs);
  }

  /**
    The framework runs Reconcile again after an error. With a cooperative cloud three runs are always
    enough, whatever the state was: delete one in ERROR, recreate it, pick up the bound address.
   */
  method ReconcileUntilSuccess(cloud: Cloud, ex: Extension, inputs: Inputs)
    returns (runs: nat, ghost id: nat, ghost addr: string)
    requires cloud.Valid() && cloud.cooperative && Ready(cloud.st, LbName(ex.ns), cloud.clock)
    requires Usable(ex, inputs) && WellFormed(inputs)
    modifies cloud, ex`state
    ensures cloud.Valid() && runs <= 3
    ensures Reconciled(cloud.st, cloud.job, id, addr, inputs.spec.value.allowed, inputs.workers.value)
    ensures cloud.job.ns == ex.ns && cloud.job.private == inputs.spec.value.private
    ensures ex.ns in cloud.st.records && ex.state == Stored(cloud.st.records[ex.ns])
  {
    runs := 1;
    var r;
    ghost var first := Rank(cloud.st, ex.ns, inputs.spec.value.private);
    r, id, addr := Reconcile(cloud, ex, inputs);
    while r.Err?
      invariant cloud.Valid()
      invariant runs + (if r.Err? then Rank(cloud.st, ex.ns, inputs.spec.value.private) + 1 else 0) <= first + 1
      invariant r.Err? ==> Ready(cloud.st, LbName(ex.ns), cloud.clock) && Usable(ex, inputs)
      invariant r.Ok? ==> Reconciled(cloud.st, cloud.job, id, addr, inputs.spec.value.allowed, inputs.workers.value)
      invariant r.Ok? ==> cloud.job.ns == ex.ns && cloud.job.private == inputs.spec.value.private
      invariant r.Ok? ==> ex.ns in cloud.st.records && ex.state == Stored(cloud.st.records[ex.ns])
      decreases first + 1 - runs
    {
      runs := runs + 1;
      r, id, addr := Reconcile(cloud, ex, inputs);
    }
  }

  /**
    The other half: an ACTIVE load balancer that is unhealthy and too old, or has listeners of one
    name, is never deleted, so even on a cooperative cloud no number of runs succeeds.
   */
  method ReconcileInVain(cloud: Cloud, ex: Extension, inputs: Inputs, runs: nat) returns (succeeded: bool)
    requires cloud.Valid() && cloud.cooperative && Stuck(cloud.st, LbName(ex.ns), cloud.clock)
    modifies cloud, ex`state
    ensures cloud.Valid() && Stuck(cloud.st, LbName(ex.ns), cloud.clock)
    ensures !succeeded
  {
    succeeded := false;
    for i := 0 to runs
      invariant cloud.Valid() && Stuck(cloud.st, LbName(ex.ns), cloud.clock)
      invariant !succeeded
    {
      var r, id, addr := Reconcile(cloud, ex, inputs);
      if r.Ok? {
        succeeded := true;
      }
    }
  }

  // ---- Delete ------------------------------------------------------------------------------

  lemma GoneNoneLive(a: State, b: State, name: string, id: nat)
    requires id < |a.lbs| && OnlyLive(a, name, id) && OthersKept(a, b, id) && !Live(b.lbs[id].status)
    ensures NoneLive(b, name)
  {
    forall i
      ensures !LiveNamed(b, i, name)
    {
      if i != id {
        assert LiveNamed(b, i, name) ==> LiveNamed(a, i, name);
      }
    }
  }

  lemma DriftThenKept(a: State, b: State, c: State, id: nat)
    requires Drift(a, b) && OthersKept(b, c, id)
    ensures OthersKept(a, c, id)
  {
    assert forall i :: 0 <= i < |a.lbs| ==> Keeps(a.lbs[i], b.lbs[i]);
  }

  /** Nothing of this name is live, or the only one that is can be deleted: it is ACTIVE or in ERROR. */
  ghost predicate Deletable(c: State, name: string) {
    forall i :: LiveNamed(c, i, name) ==>
      OnlyLive(c, name, i) && (c.lbs[i].status == Active || c.lbs[i].status == Error)
  }

  ghost predicate StartsWithLookUp(log: seq<Event>, ns: string) {
    log != [] && log[0].ListLbs? && log[0].name == "private_network-" + ns
  }

  /** The look-up was answered, and with nothing but what is deleted or being deleted. */
  ghost predicate ShownNothing(log: seq<Event>) {
    && log != [] && log[0].ListLbs? && log[0].lbs.Answer?
    && forall lb :: lb in log[0].lbs.value ==> lb.status in {PendingDelete, Deleted, Purged}
  }

  lemma DeletePath(job: Job, log: seq<Event>, ok: bool)
    requires job.op.Delete? && Path(job, Find, log) && After(job, Find, log) == Done(ok)
    ensures StartsWithLookUp(log, job.ns) && (ShownNothing(log) ==> ok && |log| == 1)
    ensures ok ==> forall k :: 0 <= k < |log| ==> Heeded(job, log[k])
  {
    LbNameInjective(job.ns, job.ns);
    if ShownNothing(log) {
      NothingToDelete(job, log);
    }
    if ok {
      ErrorsAreReported(job, Find, log);
    }
  }

  /** Floating IPs, records and the load balancers of other names stay as they are, statuses aside. */
  ghost predicate SparesAllBut(a: State, b: State, name: string) {
    && b.fips == a.fips && b.records == a.records && |b.lbs| == |a.lbs|
    && forall i :: 0 <= i < |a.lbs| && a.lbs[i].name != name ==>
         Keeps(a.lbs[i], b.lbs[i]) && b.lbs[i].listeners == a.lbs[i].listeners
  }

  /** Delete once all inputs are read: the part that talks to the cloud. */
  method RunDelete(cloud: Cloud, ns: string) returns (r: Result<(), ()>)
    requires cloud.Valid() && cloud.pc == Find && cloud.job.op == Op.Delete && cloud.job.ns == ns
    modifies cloud
    ensures cloud.Valid() && cloud.job == old(cloud.job) && cloud.pc == Done(r.Ok?)
    ensures cloud.cooperative ==>
              && (r.Ok? <==> Deletable(old(cloud.st), LbName(ns)))
              && (r.Err? ==> cloud.st == old(cloud.st))
    ensures cloud.alone && r.Ok? ==> NoneLive(cloud.st, LbName(ns))
    ensures cloud.alone ==> SparesAllBut(old(cloud.st), cloud.st, LbName(ns))
  {
    ghost var start := cloud.st;
    var nameLB := LbName(ns);
    var found := GetLoadbalancerByName(cloud, nameLB);
    ghost var looked := cloud.st;
    if found.Err? {
      if found.error != Missing {
        return Err(());
      }
      return Ok(());
    }
    var lb := found.value;
    r := DeleteLoadbalancer(cloud, lb);
    if cloud.alone {
      DriftThenKept(start, looked, cloud.st, lb.id);
      if r.Ok? {
        GoneNoneLive(looked, cloud.st, nameLB, lb.id);
      }
    }
  }

  /**
    Alone on the cloud, a Delete without error leaves nothing live under the name, and it touches no
    load balancer of another name, no floating IP and no record.
   */
  method Delete(cloud: Cloud, ex: Extension, inputs: Inputs) returns (r: Result<(), ()>)
    requires cloud.Valid()
    modifies cloud
    ensures cloud.Valid()
    ensures if inputs.cluster.Ok? && inputs.workers.Ok? then
              && Ended(Op.Delete, ex.ns, cloud.job, cloud.pc, cloud.log, r.Ok?)
              && StartsWithLookUp(cloud.log, ex.ns) && (ShownNothing(cloud.log) ==> r.Ok? && |cloud.log| == 1)
            else
              r.Err? && unchanged(cloud)
    ensures cloud.cooperative && inputs.cluster.Ok? && inputs.workers.Ok? ==>
              && (r.Ok? <==> Deletable(old(cloud.st), LbName(ex.ns)))
              && (r.Err? ==> cloud.st == old(cloud.st))
    ensures Path(cloud.job, Find, cloud.log) && After(cloud.job, Find, cloud.log) == cloud.pc
    ensures cloud.alone && r.Ok? ==> NoneLive(cloud.st, LbName(ex.ns))
    ensures cloud.alone ==> SparesAllBut(old(cloud.st), cloud.st, LbName(ex.ns))
  {
    if inputs.cluster.Err? || inputs.workers.Err? {
      return Err(());
    }
    cloud.Begin(Job(Op.Delete, ex.ns, false, {}, []));
    r := RunDelete(cloud, ex.ns);
    assert Path(cloud.job, Find, cloud.log) && After(cloud.job, Find, cloud.log) == cloud.pc;
    DeletePath(cloud.job, cloud.log, r.Ok?);
  }

  /** Migrate is Delete. */
  method Migrate(cloud: Cloud, ex: Extension, inputs: Inputs) returns (r: Result<(), ()>)
    requires cloud.Valid()
    modifies cloud
    ensures cloud.Valid()
    ensures if inputs.cluster.Ok? && inputs.workers.Ok? then
              && Ended(Op.Delete, ex.ns, cloud.job, cloud.pc, cloud.log, r.Ok?)
              && StartsWithLookUp(cloud.log, ex.ns) && (ShownNothing(cloud.log) ==> r.Ok? && |cloud.log| == 1)
            else
              r.Err? && unchanged(cloud)
    ensures cloud.cooperative && inputs.cluster.Ok? && inputs.workers.Ok? ==>
              && (r.Ok? <==> Deletable(old(cloud.st), LbName(ex.ns)))
              && (r.Err? ==> cloud.st == old(cloud.st))
    ensures Path(cloud.job, Find, cloud.log) && After(cloud.job, Find, cloud.log) == cloud.pc
    ensures cloud.alone && r.Ok? ==> NoneLive(cloud.st, LbName(ex.ns))
    ensures cloud.alone ==> SparesAllBut(old(cloud.st), cloud.st, LbName(ex.ns))
  {
    r := Delete(cloud, ex, inputs);
  }
}
