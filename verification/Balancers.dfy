// Looking up, creating, checking and deleting a load balancer (pkg/helper/openstack.go).
module Balancers {
  import opened Text
  import opened IpSet
  import opened CloudModel
  import opened Program
  import opened Interleaving
  import opened Service
  import opened Waiting

  // ---- look-up by name --------------------------------------------------------------------

  lemma {:induction false} LiveOnesAppend(lbs: seq<Lb>, lb: Lb)
    ensures LiveOnes(lbs + [lb]) == LiveOnes(lbs) + if Live(lb.status) then [lb] else []
  {
    if lbs == [] {
      assert [] + [lb] == [lb];
    } else {
      assert (lbs + [lb])[1..] == lbs[1..] + [lb];
      LiveOnesAppend(lbs[1..], lb);
    }
  }

  /** The single load balancer that is not deleted or being deleted, or why there is none. */
  method SelectLive(all: seq<Lb>) returns (r: Result<Lb, LookupError>)
    ensures r == PickLive(Answer(all))
  {
    var validLBs: seq<Lb> := [];
    for i := 0 to |all|
      invariant validLBs == LiveOnes(all[..i])
    {
      assert all[..i + 1] == all[..i] + [all[i]];
      LiveOnesAppend(all[..i], all[i]);
      if !all[i].status.Deleted? && !all[i].status.PendingDelete? && !all[i].status.Purged? {
        validLBs := validLBs + [all[i]];
      }
    }
    assert all[..|all|] == all;
    if |validLBs| > 1 {
      return Err(Multiple);
    }
    if |validLBs| == 0 {
      return Err(Missing);
    }
    return Ok(validLBs[0]);
  }

  method GetLoadbalancerByName(cloud: Cloud, name: string) returns (r: Result<Lb, LookupError>)
    requires cloud.Valid() && cloud.pc == Find && name == LbName(cloud.job.ns)
    modifies cloud
    ensures cloud.Valid() && cloud.job == old(cloud.job) && cloud.pc == AfterFind(cloud.job, r)
    ensures r == Err(Missing) ==> NoneLive(cloud.st, name)
    ensures r == Err(Multiple) ==> exists i, j :: i != j && LiveNamed(cloud.st, i, name) && LiveNamed(cloud.st, j, name)
    ensures r.Ok? ==> Sees(cloud.st, name, r.value) && OnlyLive(cloud.st, name, r.value.id)
    ensures r.Ok? ==> cloud.st.lbs[r.value.id] == r.value
    ensures cloud.alone ==> Drift(old(cloud.st), cloud.st)
    ensures cloud.cooperative ==> cloud.st == old(cloud.st) && r != Err(ApiError)
  {
    var answer := cloud.ListLbs(name);
    PickLiveIsTrue(cloud.st, name, answer);
    if !answer.Answer? {
      return Err(ApiError);
    }
    r := SelectLive(answer.value);
  }

  // ---- creation ---------------------------------------------------------------------------

  method BuildListeners(name: string, vips: seq<string>, ranges: IPNet, port: nat) returns (spec: ListenerSpec)
    ensures ListenerFits(spec, name, vips, ranges.nets.Keys, port)
  {
    var cidrs := ranges.StringSlice();
    var members: seq<PoolMember> := [];
    for i := 0 to |vips|
      invariant |members| == i && forall k :: 0 <= k < i ==> members[k] == PoolMember(vips[k], port)
    {
      members := members + [PoolMember(vips[i], port)];
    }
    spec := ListenerSpec(name + "-" + Decimal(port), port, cidrs, members);
  }

  predicate DistinctNames(ls: seq<Listener>) {
    forall j, k :: 0 <= j < k < |ls| ==> ls[j].name != ls[k].name
  }

  lemma PortNamesDistinct(name: string)
    ensures var n := port => name + "-" + Decimal(port); n(443) != n(8443) && n(443) != n(8132) && n(8443) != n(8132)
  {
    assert Decimal(443) == "443" && Decimal(8443) == "8443" && Decimal(8132) == "8132";
    assert |name + "-" + "443"| < |name + "-" + "8443"| == |name + "-" + "8132"|;
    assert (name + "-" + "8443")[|name| + 2] != (name + "-" + "8132")[|name| + 2];
  }

  lemma FittingNamesDistinct(specs: seq<ListenerSpec>, name: string, vips: seq<string>, ranges: set<string>)
    requires ListenersFit(specs, name, vips, ranges)
    ensures forall j, k :: 0 <= j < k < |specs| ==> specs[j].name != specs[k].name
  {
    PortNamesDistinct(name);
    assert forall j :: 0 <= j < 3 ==> specs[j].name == name + "-" + Decimal(PORTS[j]);
  }

  /** The three listeners of a new load balancer; each lists the allowed CIDRs in an order of its own. */
  method BuildAllListeners(name: string, vips: seq<string>, ranges: IPNet) returns (specs: seq<ListenerSpec>)
    ensures ListenersFit(specs, name, vips, ranges.nets.Keys)
  {
    var listener443 := BuildListeners(name, vips, ranges, 443);
    var listener8443 := BuildListeners(name, vips, ranges, 8443);
    var listener8132 := BuildListeners(name, vips, ranges, 8132);
    specs := [listener443, listener8443, listener8132];
  }

  /** Everything there keeps, and at most one load balancer with a port of its own is added. */
  ghost predicate Grew(a: State, b: State, name: string) {
    && b.fips == a.fips && b.records == a.records && |a.lbs| <= |b.lbs| <= |a.lbs| + 1
    && (forall i :: 0 <= i < |a.lbs| ==> Keeps(a.lbs[i], b.lbs[i]) && a.lbs[i].listeners == b.lbs[i].listeners)
    && (|b.lbs| > |a.lbs| ==>
          var lb := b.lbs[|a.lbs|];
          && lb.name == name && Live(lb.status) && lb.port != "" && DistinctNames(lb.listeners)
          && (forall i :: 0 <= i < |a.lbs| ==> a.lbs[i].port != lb.port)
          && (forall f :: 0 <= f < |a.fips| ==> a.fips[f].port != lb.port))
  }

  lemma GrewByDrift(a: State, b: State, c: State, name: string)
    requires Grew(a, b, name) && Drift(b, c)
    ensures Grew(a, c, name)
  {
    assert forall i :: 0 <= i < |b.lbs| ==> Keeps(b.lbs[i], c.lbs[i]);
  }

  lemma DriftThenAdds(a: State, b: State, c: State, name: string, specs: seq<ListenerSpec>)
    requires Drift(a, b) && Adds(b, name, specs, c)
    requires forall j, k :: 0 <= j < k < |specs| ==> specs[j].name != specs[k].name
    ensures Grew(a, c, name)
  {
    forall i | 0 <= i < |a.lbs|
      ensures Keeps(a.lbs[i], c.lbs[i]) && a.lbs[i].listeners == c.lbs[i].listeners && a.lbs[i].port == b.lbs[i].port
    {
      assert Keeps(a.lbs[i], b.lbs[i]) && c.lbs[i] == b.lbs[i];
    }
  }

  method Look(cloud: Cloud, kind: LookupKind) returns (r: Reply<string>)
    requires cloud.Valid() && Permits(cloud.job, cloud.pc, Event.Lookup(kind, Failed))
    modifies cloud
    ensures cloud.Valid() && cloud.job == old(cloud.job)
    ensures Permits(cloud.job, old(cloud.pc), Event.Lookup(kind, r))
    ensures cloud.pc == Next(cloud.job, old(cloud.pc), Event.Lookup(kind, r))
    ensures cloud.alone ==> Drift(old(cloud.st), cloud.st)
    ensures cloud.cooperative ==> r.Answer? && cloud.st == old(cloud.st)
  {
    r := cloud.Lookup(kind);
  }

  method LookUpPrerequisites(cloud: Cloud) returns (ready: bool)
    requires cloud.Valid() && cloud.pc == SubnetOf
    modifies cloud
    ensures cloud.Valid() && cloud.job == old(cloud.job)
    ensures cloud.pc == if ready then Create else Done(false)
    ensures cloud.alone ==> Drift(old(cloud.st), cloud.st)
    ensures cloud.cooperative ==> ready && cloud.st == old(cloud.st)
  {
    var subnet := Look(cloud, WorkerSubnet);
    if !subnet.Answer? {
      return false;
    }
    ghost var looked := cloud.st;
    var flavor := Look(cloud, FlavorId);
    DriftTransitive(old(cloud.st), looked, cloud.st);
    return flavor.Answer?;
  }

  method RequestLb(cloud: Cloud, name: string, specs: seq<ListenerSpec>) returns (r: Reply<Lb>)
    requires cloud.Valid() && cloud.pc == Create && name == LbName(cloud.job.ns)
    requires ListenersFit(specs, name, cloud.job.vips, cloud.job.ranges)
    modifies cloud
    ensures cloud.Valid() && cloud.job == old(cloud.job)
    ensures cloud.pc == if r.Answer? then Await(r.value.id, None, 0) else Done(false)
    ensures r.Answer? ==>
              r.value.id < |cloud.st.lbs| && cloud.st.lbs[r.value.id] == r.value && r.value.status == PendingCreate
    ensures r.Answer? ==> r.value.id == |cloud.st.lbs| - 1
    ensures cloud.alone ==> Grew(old(cloud.st), cloud.st, name)
    ensures cloud.alone && r.Answer? ==> r.value.id == |old(cloud.st).lbs|
    ensures cloud.cooperative ==>
              r.Answer? && Timely(r.value, cloud.clock) && cloud.st.lbs == old(cloud.st).lbs + [r.value]
  {
    FittingNamesDistinct(specs, name, cloud.job.vips, cloud.job.ranges);
    r := cloud.CreateLb(name, specs);
    if cloud.alone && Adds(cloud.seen, name, specs, cloud.st) {
      DriftThenAdds(old(cloud.st), cloud.seen, cloud.st, name, specs);
    }
  }

  /** The request for a new load balancer, and the wait until it is ACTIVE. */
  method RequestAndAwait(cloud: Cloud, name: string, specs: seq<ListenerSpec>) returns (r: Result<Lb, ()>)
    requires cloud.Valid() && cloud.pc == Create && name == LbName(cloud.job.ns)
    requires ListenersFit(specs, name, cloud.job.vips, cloud.job.ranges)
    modifies cloud
    ensures cloud.Valid() && cloud.job == old(cloud.job)
    ensures cloud.pc == if r.Ok? then Listeners(r.value) else Done(false)
    ensures r.Ok? ==> r.value.id < |cloud.st.lbs| && cloud.st.lbs[r.value.id] == r.value && r.value.status == Active
    ensures cloud.alone ==> Grew(old(cloud.st), cloud.st, name)
    ensures cloud.alone && r.Ok? ==> r.value.id == |old(cloud.st).lbs| == |cloud.st.lbs| - 1
    ensures cloud.cooperative ==> r.Ok? && Timely(r.value, cloud.clock) && cloud.st.lbs == old(cloud.st).lbs + [r.value]
  {
    var made := RequestLb(cloud, name, specs);
    if !made.Answer? {
      return Err(());
    }
    ghost var grown := cloud.st;
    var lb, polls, slept := WaitActiveAndGetLoadBalancer(cloud, made.value.id, None);
    if cloud.alone {
      GrewByDrift(old(cloud.st), grown, cloud.st, name);
    }
    if !lb.Reached? {
      return Err(());
    }
    return Ok(lb.poll.value);
  }

  method CreateLoadBalancer(cloud: Cloud, vips: seq<string>, name: string, ranges: IPNet) returns (r: Result<Lb, ()>)
    requires cloud.Valid() && cloud.pc == SubnetOf && name == LbName(cloud.job.ns)
    requires ranges.nets.Keys == cloud.job.ranges && vips == cloud.job.vips
    modifies cloud
    ensures cloud.Valid() && cloud.job == old(cloud.job)
    ensures cloud.pc == if r.Ok? then Listeners(r.value) else Done(false)
    ensures r.Ok? ==> r.value.id < |cloud.st.lbs| && cloud.st.lbs[r.value.id] == r.value && r.value.status == Active
    ensures cloud.alone ==> Grew(old(cloud.st), cloud.st, name)
    ensures cloud.alone && r.Ok? ==> r.value.id == |old(cloud.st).lbs| == |cloud.st.lbs| - 1
    ensures cloud.cooperative ==> r.Ok? && Timely(r.value, cloud.clock) && cloud.st.lbs == old(cloud.st).lbs + [r.value]
  {
    var ready := LookUpPrerequisites(cloud);
    if !ready {
      return Err(());
    }
    var listeners := BuildAllListeners(name, vips, ranges);
    ghost var asked := cloud.st;
    r := RequestAndAwait(cloud, name, listeners);
    if cloud.alone {
      GrewAfterDrift(old(cloud.st), asked, cloud.st, name);
    }
  }

  lemma GrewAfterDrift(a: State, b: State, c: State, name: string)
    requires Drift(a, b) && Grew(b, c, name)
    ensures Grew(a, c, name)
  {
    forall i | 0 <= i < |a.lbs|
      ensures Keeps(a.lbs[i], c.lbs[i]) && a.lbs[i].listeners == c.lbs[i].listeners && a.lbs[i].port == b.lbs[i].port
    {
      assert Keeps(a.lbs[i], b.lbs[i]) && Keeps(b.lbs[i], c.lbs[i]);
    }
  }

  // ---- deletion ---------------------------------------------------------------------------

  /** All other load balancers keep, and this one keeps its name and port. */
  ghost predicate OthersKept(a: State, b: State, id: nat) {
    && b.fips == a.fips && b.records == a.records && |b.lbs| == |a.lbs|
    && forall i :: 0 <= i < |a.lbs| ==>
         && b.lbs[i].name == a.lbs[i].name && b.lbs[i].port == a.lbs[i].port
         && if i == id then Live(b.lbs[i].status) ==> Live(a.lbs[i].status)
            else Keeps(a.lbs[i], b.lbs[i]) && a.lbs[i].listeners == b.lbs[i].listeners
  }

  lemma KeptThenDrift(a: State, b: State, c: State, id: nat)
    requires OthersKept(a, b, id) && Drift(b, c)
    ensures OthersKept(a, c, id)
    ensures id < |c.lbs| ==> Live(c.lbs[id].status) == Live(b.lbs[id].status)
  {
    assert forall i :: 0 <= i < |b.lbs| ==> Keeps(b.lbs[i], c.lbs[i]);
  }

  method RequestDeletion(cloud: Cloud, id: nat) returns (r: Reply<()>)
    requires cloud.Valid() && cloud.pc == Drop(id)
    modifies cloud
    ensures cloud.Valid() && cloud.job == old(cloud.job)
    ensures cloud.pc == if r.Failed? then Done(false) else AwaitGone(id, 0)
    ensures !r.Failed? && id < |cloud.st.lbs| ==> !Live(cloud.st.lbs[id].status)
    ensures cloud.alone ==> OthersKept(old(cloud.st), cloud.st, id)
    ensures cloud.cooperative && id < |old(cloud.st).lbs| && Live(old(cloud.st).lbs[id].status) ==>
              r.Answer? && cloud.st == WithStatus(old(cloud.st), id, PendingDelete)
  {
    r := cloud.DeleteLb(id);
    if cloud.alone {
      assert forall i :: 0 <= i < |cloud.seen.lbs| ==> Keeps(old(cloud.st).lbs[i], cloud.seen.lbs[i]);
    }
  }

  lemma LastStatusCounts(c: State, id: nat, s: Status, t: Status)
    requires id < |c.lbs|
    ensures WithStatus(WithStatus(c, id, s), id, t) == WithStatus(c, id, t)
    ensures WithStatus(c, id, s).lbs[id].status == s
  {
  }

  /** Without error, the load balancer is gone, and with it all that was live under its name. */
  method DeleteLoadbalancer(cloud: Cloud, lb: Lb) returns (r: Result<(), ()>)
    requires cloud.Valid()
    requires cloud.pc == if lb.status.Active? || lb.status.Error? then Drop(lb.id) else Done(false)
    modifies cloud
    ensures cloud.Valid() && cloud.job == old(cloud.job)
    ensures cloud.pc == Done(r.Ok? && cloud.job.op.Delete?)
    ensures !lb.status.Active? && !lb.status.Error? ==> r.Err? && cloud.st == old(cloud.st)
    ensures cloud.alone ==> OthersKept(old(cloud.st), cloud.st, lb.id)
    ensures cloud.alone && r.Ok? && lb.id < |cloud.st.lbs| ==> !Live(cloud.st.lbs[lb.id].status)
    ensures cloud.cooperative && lb.id < |old(cloud.st).lbs| && old(cloud.st).lbs[lb.id] == lb
            && (lb.status.Active? || lb.status.Error?) ==>
              r.Ok?
    ensures cloud.cooperative && lb.id < |old(cloud.st).lbs| && r.Ok? && Live(old(cloud.st).lbs[lb.id].status) ==>
              cloud.st == WithStatus(old(cloud.st), lb.id, Purged)
  {
    if !lb.status.Active? && !lb.status.Error? {
      return Err(());
    }
    var gone := RequestDeletion(cloud, lb.id);
    if gone.Failed? {
      return Err(());
    }
    ghost var requested := cloud.st;
    if lb.id < |old(cloud.st).lbs| {
      LastStatusCounts(old(cloud.st), lb.id, PendingDelete, Purged);
    }
    var waited, polls, slept := WaitLoadbalancerDeleted(cloud, lb.id);
    if cloud.alone {
      KeptThenDrift(old(cloud.st), requested, cloud.st, lb.id);
    }
    if !waited.Reached? {
      return Err(());
    }
    return Ok(());
  }

  // ---- listeners --------------------------------------------------------------------------

  method GetListenerByName(cloud: Cloud, ghost lb: Lb, ghost rest: seq<Listener>, name: string, lbID: nat)
    returns (r: Result<Listener, LookupError>)
    requires cloud.Valid() && rest != [] && cloud.pc == Resolve(lb, rest) && name == rest[0].name && lbID == lb.id
    modifies cloud
    ensures cloud.Valid() && cloud.job == old(cloud.job)
    ensures cloud.pc == if r.Ok? then Adjust(lb, r.value, rest[1..]) else Done(false)
    ensures lbID < |cloud.st.lbs| && rest[0] in cloud.st.lbs[lbID].listeners && r.Ok? ==>
              r.value == rest[0] && |Named(cloud.st.lbs[lbID].listeners, name)| == 1
    ensures cloud.alone ==> Drift(old(cloud.st), cloud.st)
    ensures cloud.cooperative ==> cloud.st == old(cloud.st)
    ensures cloud.cooperative && lbID < |cloud.st.lbs| && Named(cloud.st.lbs[lbID].listeners, name) == [rest[0]] ==>
              r.Ok?
  {
    var pages := cloud.ListenersNamed(lbID, name);
    if cloud.cooperative && lbID < |cloud.st.lbs| {
      PaginationIndependence(pages);
    }
    r := ReadPages(pages);
    if r.Ok? && lbID < |cloud.st.lbs| && rest[0] in cloud.st.lbs[lbID].listeners {
      PickedIsTheOne(pages, cloud.st.lbs[lbID].listeners, rest[0]);
      PickedIsAlone(pages, cloud.st.lbs[lbID].listeners, name);
    }
  }

  /** The page loop, with its early stop. */
  method ReadPages(pages: seq<Reply<seq<Listener>>>) returns (r: Result<Listener, LookupError>)
    ensures r == PickListener(pages)
  {
    var listenerList: seq<Listener> := [];
    for i := 0 to |pages|
      invariant PickListener(pages) == ScanPages(pages[i..], listenerList)
    {
      var page := pages[i];
      assert pages[i..][1..] == pages[i + 1..];
      if page == Answer([]) {
        break;
      }
      if page.NotFound? {
        return Err(Missing);
      }
      if page.Failed? {
        return Err(ApiError);
      }
      listenerList := listenerList + page.value;
      if |listenerList| > 1 {
        return Err(Multiple);
      }
    }
    if |listenerList| == 0 {
      return Err(Missing);
    }
    return Ok(listenerList[0]);
  }

  method ListAll(cloud: Cloud, lb: Lb) returns (r: Reply<seq<Listener>>)
    requires cloud.Valid() && cloud.pc == Listeners(lb)
    modifies cloud
    ensures cloud.Valid() && cloud.job == old(cloud.job)
    ensures cloud.pc == if r.Answer? then NextListener(lb, r.value) else Done(false)
    ensures r.Answer? ==> lb.id < |cloud.st.lbs| && r.value == cloud.st.lbs[lb.id].listeners
    ensures cloud.alone ==> Drift(old(cloud.st), cloud.st)
    ensures cloud.cooperative ==> cloud.st == old(cloud.st) && (lb.id < |cloud.st.lbs| ==> r.Answer?)
  {
    r := cloud.ListListeners(lb.id);
  }

  /** Drift, plus at most a new list of allowed CIDRs for one listener. */
  ghost predicate Rewrites(a: State, b: State, id: nat, l: nat, cidrs: seq<string>) {
    && Tends(a, b, id)
    && (id < |a.lbs| ==>
          && |b.lbs[id].listeners| == |a.lbs[id].listeners|
          && forall k :: 0 <= k < |a.lbs[id].listeners| ==>
               || b.lbs[id].listeners[k] == a.lbs[id].listeners[k]
               || (k == l && b.lbs[id].listeners[k] == a.lbs[id].listeners[k].(cidrs := cidrs)))
  }

  lemma EditRewrites(a: State, b: State, c: State, id: nat, l: nat, cidrs: seq<string>)
    requires Drift(a, b) && (c == b || Edits(b, id, l, cidrs, c))
    ensures Rewrites(a, c, id, l, cidrs)
  {
    forall i | 0 <= i < |a.lbs|
      ensures Keeps(a.lbs[i], c.lbs[i]) && SameNames(a.lbs[i].listeners, c.lbs[i].listeners)
      ensures i != id ==> a.lbs[i].listeners == c.lbs[i].listeners
    {
      assert Keeps(a.lbs[i], b.lbs[i]) && a.lbs[i].listeners == b.lbs[i].listeners;
    }
  }

  method RequestUpdate(cloud: Cloud, ghost lb: Lb, l: Listener, ghost rest: seq<Listener>, lbID: nat,
                       cidrs: seq<string>)
    returns (r: Reply<()>)
    requires cloud.Valid() && cloud.pc == Adjust(lb, l, rest) && lbID == lb.id
    requires Elems(cidrs) == cloud.job.ranges
    modifies cloud
    ensures cloud.Valid() && cloud.job == old(cloud.job)
    ensures cloud.pc == if r.Answer? then Await(lbID, Some(rest), 0) else Done(false)
    ensures cloud.log == old(cloud.log) + [UpdateListener(lbID, l.id, cidrs, r)]
    ensures cloud.alone ==> Rewrites(old(cloud.st), cloud.st, lbID, l.id, cidrs)
    ensures r.Answer? ==>
              && lbID < |cloud.st.lbs| && l.id < |cloud.st.lbs[lbID].listeners|
              && cloud.st.lbs[lbID].listeners[l.id].cidrs == cidrs && cloud.st.lbs[lbID].status.PendingUpdate?
    ensures cloud.cooperative && lbID < |old(cloud.st).lbs| && old(cloud.st).lbs[lbID].status.Active?
            && l in old(cloud.st).lbs[lbID].listeners ==>
              r.Answer? && cloud.st.lbs[lbID].oper == old(cloud.st).lbs[lbID].oper
  {
    r := cloud.UpdateListener(lbID, l.id, cidrs);
    if cloud.alone {
      EditRewrites(old(cloud.st), cloud.seen, cloud.st, lbID, l.id, cidrs);
    }
  }

  /** Bring one listener in line, or leave it alone when its list equals the wanted one. */
  method AlignListener(cloud: Cloud, ghost lb: Lb, l: Listener, ghost rest: seq<Listener>, lbID: nat,
                       cidrs: seq<string>)
    returns (r: Result<(), ()>)
    requires cloud.Valid() && cloud.pc == Adjust(lb, l, rest) && lbID == lb.id
    requires Elems(cidrs) == cloud.job.ranges
    modifies cloud
    ensures cloud.Valid() && cloud.job == old(cloud.job)
    ensures cloud.pc == if r.Ok? then Await(lbID, Some(rest), 0) else Done(false)
    ensures l.cidrs == cidrs || cidrs == [] ==>
              r.Ok? && cloud.st == old(cloud.st) && cloud.log == old(cloud.log) + [KeepListener(lbID, l.id)]
    ensures l.cidrs != cidrs && cidrs != [] ==>
              exists updated :: cloud.log == old(cloud.log) + [UpdateListener(lbID, l.id, cidrs, updated)]
    ensures cloud.alone ==> Rewrites(old(cloud.st), cloud.st, lbID, l.id, cidrs)
    ensures cloud.alone && r.Ok? && lbID < |cloud.st.lbs| && l in old(cloud.st).lbs[lbID].listeners && cidrs != [] ==>
              l.id < |cloud.st.lbs[lbID].listeners| && cloud.st.lbs[lbID].listeners[l.id].cidrs == cidrs
    ensures cloud.cooperative && lbID < |old(cloud.st).lbs| && old(cloud.st).lbs[lbID].status.Active?
            && l in old(cloud.st).lbs[lbID].listeners ==>
              && r.Ok? && CanBecomeActive(cloud.st.lbs[lbID].status)
              && cloud.st.lbs[lbID].oper == old(cloud.st).lbs[lbID].oper
  {
    if |cidrs| > 0 && l.cidrs != cidrs {
      var updated := RequestUpdate(cloud, lb, l, rest, lbID, cidrs);
      if !updated.Answer? {
        return Err(());
      }
    } else {
      assert |cidrs| == 0 ==> Elems(cidrs) == {};
      cloud.KeepListener(lbID, l.id);
    }
    return Ok(());
  }

  // ---- CheckLoadBalancer ------------------------------------------------------------------

  /** Names stay, and the first `done` listeners have the wanted set of CIDRs. */
  ghost predicate Aligned(was: seq<Listener>, now: seq<Listener>, done: nat, ranges: set<string>) {
    && |now| == |was|
    && (forall k :: 0 <= k < |was| ==> now[k].name == was[k].name)
    && (forall k :: done <= k < |was| ==> now[k] == was[k])
    && (ranges != {} ==> forall k :: 0 <= k < |was| && k < done ==> Elems(now[k].cidrs) == ranges)
  }

  lemma AlignOne(a: State, b: State, was: seq<Listener>, i: nat, id: nat, cidrs: seq<string>, ranges: set<string>)
    requires Coherent(a) && id < |a.lbs| && i < |was| && Elems(cidrs) == ranges
    requires Aligned(was, a.lbs[id].listeners, i, ranges) && Rewrites(a, b, id, i, cidrs)
    requires cidrs != [] ==> b.lbs[id].listeners[i].cidrs == cidrs
    ensures Aligned(was, b.lbs[id].listeners, i + 1, ranges)
  {
    if cidrs == [] {
      assert ranges == {};
    }
  }

  lemma TendsTransitive(a: State, b: State, c: State, id: nat)
    requires Tends(a, b, id) && Tends(b, c, id)
    ensures Tends(a, c, id)
  {
    forall i | 0 <= i < |a.lbs|
      ensures Keeps(a.lbs[i], c.lbs[i]) && SameNames(a.lbs[i].listeners, c.lbs[i].listeners)
      ensures i != id ==> a.lbs[i].listeners == c.lbs[i].listeners
    {
      assert Keeps(a.lbs[i], b.lbs[i]) && Keeps(b.lbs[i], c.lbs[i]);
    }
  }

  lemma {:induction false} NamedNone(ls: seq<Listener>, name: string)
    requires forall k :: 0 <= k < |ls| ==> ls[k].name != name
    ensures Named(ls, name) == []
  {
    if ls != [] {
      NamedNone(ls[1..], name);
    }
  }

  lemma {:induction false} NamedAlone(ls: seq<Listener>, i: nat)
    requires i < |ls| && DistinctNames(ls)
    ensures Named(ls, ls[i].name) == [ls[i]]
  {
    if i == 0 {
      NamedNone(ls[1..], ls[0].name);
    } else {
      NamedAlone(ls[1..], i - 1);
    }
  }

  /** No other listener has the name of this one. */
  predicate NameUnique(ls: seq<Listener>, i: nat)
    requires i < |ls|
  {
    forall k :: 0 <= k < |ls| && k != i ==> ls[k].name != ls[i].name
  }

  lemma AllUnique(ls: seq<Listener>)
    requires forall i :: 0 <= i < |ls| ==> NameUnique(ls, i)
    ensures DistinctNames(ls)
  {
    forall j, k | 0 <= j < k < |ls|
      ensures ls[j].name != ls[k].name
    {
      assert NameUnique(ls, j);
    }
  }

  lemma {:induction false} NamedTwice(ls: seq<Listener>, i: nat, j: nat)
    requires i < j < |ls| && ls[i].name == ls[j].name
    ensures |Named(ls, ls[i].name)| >= 2
  {
    if i > 0 {
      NamedTwice(ls[1..], i - 1, j - 1);
    } else {
      assert ls[1..][j - 1] == ls[j] && ls[j] in ls[1..];
      assert ls[j] in Named(ls[1..], ls[0].name);
    }
  }

  lemma NamedOnce(ls: seq<Listener>, was: seq<Listener>, i: nat)
    requires SameNames(was, ls) && i < |ls| && |Named(ls, ls[i].name)| == 1
    ensures NameUnique(was, i)
  {
    forall k | 0 <= k < |ls| && k != i
      ensures was[k].name != was[i].name
    {
      if ls[k].name == ls[i].name {
        NamedTwice(ls, if k < i then k else i, if k < i then i else k);
      }
    }
  }

  /** Find the next listener again by its name. */
  method FindNext(cloud: Cloud, lb: Lb, ls: seq<Listener>, i: nat) returns (r: Result<Listener, LookupError>)
    requires cloud.Valid() && i < |ls| && cloud.pc == Resolve(lb, ls[i..])
    modifies cloud
    ensures cloud.Valid() && cloud.job == old(cloud.job)
    ensures cloud.pc == if r.Ok? then Adjust(lb, r.value, ls[i + 1..]) else Done(false)
    ensures cloud.alone ==> Drift(old(cloud.st), cloud.st)
    ensures cloud.cooperative ==> cloud.st == old(cloud.st)
    ensures cloud.alone && lb.id < |cloud.st.lbs| && r.Ok?
            && Aligned(ls, old(cloud.st).lbs[lb.id].listeners, i, cloud.job.ranges) ==>
              r.value == ls[i] == cloud.st.lbs[lb.id].listeners[i] && NameUnique(ls, i)
    ensures cloud.cooperative && lb.id < |cloud.st.lbs| && DistinctNames(ls)
            && Aligned(ls, old(cloud.st).lbs[lb.id].listeners, i, cloud.job.ranges) ==>
              r.Ok?
  {
    ghost var start := cloud.st;
    ghost var fits :=
      cloud.alone && lb.id < |start.lbs| && Aligned(ls, start.lbs[lb.id].listeners, i, cloud.job.ranges);
    assert ls[i..][0] == ls[i] && ls[i..][1..] == ls[i + 1..];
    if fits {
      assert start.lbs[lb.id].listeners[i] == ls[i];
      if DistinctNames(ls) {
        NamedAlone(start.lbs[lb.id].listeners, i);
      }
    }
    r := GetListenerByName(cloud, lb, ls[i..], ls[i].name, lb.id);
    if fits && r.Ok? {
      NamedOnce(cloud.st.lbs[lb.id].listeners, ls, i);
    }
  }

  /** Find the listener again by name and align it. */
  method AlignNext(cloud: Cloud, lb: Lb, ls: seq<Listener>, i: nat, cidrs: seq<string>) returns (r: Result<(), ()>)
    requires cloud.Valid() && i < |ls| && cloud.pc == Resolve(lb, ls[i..]) && Elems(cidrs) == cloud.job.ranges
    modifies cloud
    ensures cloud.Valid() && cloud.job == old(cloud.job)
    ensures cloud.pc == if r.Ok? then Await(lb.id, Some(ls[i + 1..]), 0) else Done(false)
    ensures cloud.alone ==> Tends(old(cloud.st), cloud.st, lb.id)
    ensures cloud.alone && lb.id < |cloud.st.lbs|
            && Aligned(ls, old(cloud.st).lbs[lb.id].listeners, i, cloud.job.ranges)
            && r.Ok? ==>
              Aligned(ls, cloud.st.lbs[lb.id].listeners, i + 1, cloud.job.ranges) && NameUnique(ls, i)
    ensures cloud.cooperative && lb.id < |old(cloud.st).lbs| && old(cloud.st).lbs[lb.id].status.Active?
            && Aligned(ls, old(cloud.st).lbs[lb.id].listeners, i, cloud.job.ranges) && DistinctNames(ls) ==>
              r.Ok?
    ensures cloud.cooperative && lb.id < |old(cloud.st).lbs| && old(cloud.st).lbs[lb.id].status.Active?
            && Aligned(ls, old(cloud.st).lbs[lb.id].listeners, i, cloud.job.ranges) ==>
              && cloud.st.lbs[lb.id].oper == old(cloud.st).lbs[lb.id].oper
              && if r.Ok? then CanBecomeActive(cloud.st.lbs[lb.id].status) else cloud.st.lbs[lb.id].status.Active?
  {
    ghost var start := cloud.st;
    ghost var fits :=
      cloud.alone && lb.id < |start.lbs| && Aligned(ls, start.lbs[lb.id].listeners, i, cloud.job.ranges);
    var listener := FindNext(cloud, lb, ls, i);
    if listener.Err? {
      return Err(());
    }
    ghost var found := cloud.st;
    r := AlignListener(cloud, lb, listener.value, ls[i + 1..], lb.id, cidrs);
    if cloud.alone {
      TendsTransitive(start, found, cloud.st, lb.id);
    }
    if fits && r.Ok? {
      AlignOne(found, cloud.st, ls, i, lb.id, cidrs, cloud.job.ranges);
    }
  }

  /** One round of the loop: align the next listener and wait for ACTIVE. */
  method CheckOne(cloud: Cloud, lb: Lb, ls: seq<Listener>, i: nat, cidrs: seq<string>, ghost start: State)
    returns (r: Result<Lb, ()>)
    requires cloud.Valid() && i < |ls| && cloud.pc == Resolve(lb, ls[i..]) && Elems(cidrs) == cloud.job.ranges
    requires cloud.alone ==> Tends(start, cloud.st, lb.id)
    modifies cloud
    ensures cloud.Valid() && cloud.job == old(cloud.job)
    ensures cloud.pc == if r.Ok? then NextListener(r.value, ls[i + 1..]) else Done(false)
    ensures r.Ok? ==> r.value.id == lb.id < |cloud.st.lbs| && cloud.st.lbs[lb.id] == r.value && r.value.status.Active?
    ensures cloud.alone ==> Tends(start, cloud.st, lb.id)
    ensures cloud.alone && lb.id < |cloud.st.lbs|
            && Aligned(ls, old(cloud.st).lbs[lb.id].listeners, i, cloud.job.ranges)
            && r.Ok? ==>
              Aligned(ls, cloud.st.lbs[lb.id].listeners, i + 1, cloud.job.ranges) && NameUnique(ls, i)
    ensures cloud.cooperative && lb.id < |old(cloud.st).lbs| && old(cloud.st).lbs[lb.id].status.Active?
            && Aligned(ls, old(cloud.st).lbs[lb.id].listeners, i, cloud.job.ranges) && DistinctNames(ls) ==>
              r.Ok?
    ensures cloud.cooperative && lb.id < |old(cloud.st).lbs| && old(cloud.st).lbs[lb.id].status.Active?
            && Aligned(ls, old(cloud.st).lbs[lb.id].listeners, i, cloud.job.ranges) ==>
              cloud.st.lbs[lb.id].status.Active? && cloud.st.lbs[lb.id].oper == old(cloud.st).lbs[lb.id].oper
  {
    ghost var before := cloud.st;
    var aligned := AlignNext(cloud, lb, ls, i, cidrs);
    if cloud.alone {
      TendsTransitive(start, before, cloud.st, lb.id);
    }
    if aligned.Err? {
      return Err(());
    }
    ghost var edited := cloud.st;
    var waited, polls, slept := WaitActiveAndGetLoadBalancer(cloud, lb.id, Some(ls[i + 1..]));
    if cloud.alone {
      TendsTransitive(start, edited, cloud.st, lb.id);
    }
    if !waited.Reached? {
      return Err(());
    }
    return Ok(waited.poll.value);
  }

  lemma SameListenersAligned(ls: seq<Listener>, ranges: set<string>)
    ensures Aligned(ls, ls, 0, ranges)
  {
  }

  /** The loop over the listed listeners. */
  method CheckAll(cloud: Cloud, lb: Lb, ls: seq<Listener>, cidrs: seq<string>) returns (r: Result<Lb, ()>)
    requires cloud.Valid() && cloud.pc == NextListener(lb, ls) && Elems(cidrs) == cloud.job.ranges
    modifies cloud
    ensures cloud.Valid() && cloud.job == old(cloud.job)
    ensures cloud.pc == if r.Ok? then FindFip(r.value) else Done(false)
    ensures cloud.alone ==> Tends(old(cloud.st), cloud.st, lb.id)
    ensures cloud.alone && lb.id < |cloud.st.lbs| && Keeps(lb, old(cloud.st).lbs[lb.id])
            && old(cloud.st).lbs[lb.id].listeners == ls && r.Ok? ==>
              && Keeps(r.value, cloud.st.lbs[lb.id]) && DistinctNames(ls)
              && Aligned(ls, cloud.st.lbs[lb.id].listeners, |ls|, cloud.job.ranges)
    ensures cloud.cooperative && lb.id < |old(cloud.st).lbs| && old(cloud.st).lbs[lb.id] == lb
            && lb.listeners == ls && lb.status.Active? ==>
              && (r.Ok? <==> DistinctNames(ls)) && (r.Ok? ==> cloud.st.lbs[lb.id] == r.value)
              && cloud.st.lbs[lb.id].status.Active? && cloud.st.lbs[lb.id].oper == lb.oper
  {
    ghost var start := cloud.st;
    var current := lb;
    ghost var mine :=
      cloud.alone && lb.id < |start.lbs| && Keeps(lb, start.lbs[lb.id]) && start.lbs[lb.id].listeners == ls;
    ghost var helped := cloud.cooperative && mine && start.lbs[lb.id] == lb && lb.status.Active?;
    SameListenersAligned(ls, cloud.job.ranges);
    assert ls[0..] == ls;
    for i := 0 to |ls|
      invariant cloud.Valid() && cloud.job == old(cloud.job) && current.id == lb.id
      invariant cloud.pc == NextListener(current, ls[i..])
      invariant cloud.alone ==> Tends(start, cloud.st, lb.id)
      invariant mine ==> Keeps(current, cloud.st.lbs[lb.id])
      invariant mine ==> Aligned(ls, cloud.st.lbs[lb.id].listeners, i, cloud.job.ranges)
      invariant mine ==> forall k :: 0 <= k < i ==> NameUnique(ls, k)
      invariant helped ==> cloud.st.lbs[lb.id] == current && current.status.Active? && current.oper == lb.oper
    {
      var checked := CheckOne(cloud, current, ls, i, cidrs, start);
      if checked.Err? {
        return Err(());
      }
      current := checked.value;
    }
    if mine {
      AllUnique(ls);
    }
    return Ok(current);
  }

  /** Without error, every listener of the load balancer ends up with exactly the wanted set of CIDRs. */
  method CheckLoadBalancer(cloud: Cloud, lb: Lb, ranges: IPNet) returns (r: Result<Lb, ()>)
    requires cloud.Valid() && cloud.pc == Listeners(lb) && ranges.nets.Keys == cloud.job.ranges
    modifies cloud
    ensures cloud.Valid() && cloud.job == old(cloud.job)
    ensures cloud.pc == if r.Ok? then FindFip(r.value) else Done(false)
    ensures cloud.alone ==> Tends(old(cloud.st), cloud.st, lb.id)
    ensures cloud.alone && lb.id < |cloud.st.lbs| && old(cloud.st).lbs[lb.id] == lb && r.Ok? ==>
              && Keeps(r.value, cloud.st.lbs[lb.id]) && DistinctNames(lb.listeners)
              && Aligned(lb.listeners, cloud.st.lbs[lb.id].listeners, |lb.listeners|, cloud.job.ranges)
    ensures cloud.cooperative && lb.id < |old(cloud.st).lbs| && old(cloud.st).lbs[lb.id] == lb && lb.status.Active? ==>
              && (r.Ok? <==> DistinctNames(lb.listeners)) && (r.Ok? ==> cloud.st.lbs[lb.id] == r.value)
              && cloud.st.lbs[lb.id].status.Active? && cloud.st.lbs[lb.id].oper == lb.oper
  {
    var cidrs := ranges.StringSlice();
    var listed := ListAll(cloud, lb);
    if !listed.Answer? {
      return Err(());
    }
    ghost var before := cloud.st;
    r := CheckAll(cloud, lb, listed.value, cidrs);
    if cloud.alone {
      TendsTransitive(old(cloud.st), before, cloud.st, lb.id);
    }
  }
}
