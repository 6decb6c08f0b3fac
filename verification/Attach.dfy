// AttachFloatingIP (pkg/helper/openstack.go): finding, binding, creating or detaching the floating IP
// of a load balancer's VIP port.
module Attach {
  import opened Text
  import opened CloudModel
  import opened Program
  import opened FloatingRuns
  import opened Service

  // ---- what a call does to the floating IPs ------------------------------------------------

  /** The one change a call makes: none, one free address bound, one new address, or one detached. */
  datatype Move = Nothing | Attached(fip: nat) | Made(pool: string, project: string) | Detached(fip: nat)

  predicate Suitable(f: Fip, pool: string, project: string) {
    Hits(DownIn(pool, project), f) && f.port == "" && f.forwards == 0
  }

  ghost predicate AtMostOneSuitable(fips: seq<Fip>, pool: string, project: string) {
    forall f, g :: 0 <= f < g < |fips| ==> !(Suitable(fips[f], pool, project) && Suitable(fips[g], pool, project))
  }

  ghost predicate NoneSuitable(fips: seq<Fip>, pool: string, project: string) {
    forall f :: 0 <= f < |fips| ==> !Suitable(fips[f], pool, project)
  }

  ghost predicate Applies(m: Move, a: seq<Fip>, b: seq<Fip>, port: string) {
    match m
    case Nothing => b == a
    case Attached(f) => f < |a| && a[f].port == "" && a[f].forwards == 0 && b == a[f := a[f].(port := port)]
    case Made(pool, project) =>
      && |b| == |a| + 1 && b == a + [b[|a|]]
      && b[|a|].port == port && b[|a|].pool == pool && b[|a|].project == project
      && NoneSuitable(a, pool, project)
    case Detached(f) => f < |a| && a[f].port == port && b == a[f := a[f].(port := "")]
  }

  /** Drift, leaving the floating IPs aside. */
  ghost predicate LbsDrift(a: State, b: State) {
    && b.records == a.records && |b.lbs| == |a.lbs|
    && forall i :: 0 <= i < |a.lbs| ==> Keeps(a.lbs[i], b.lbs[i]) && a.lbs[i].listeners == b.lbs[i].listeners
  }

  lemma LbsDriftTransitive(a: State, b: State, c: State)
    requires LbsDrift(a, b) && LbsDrift(b, c)
    ensures LbsDrift(a, c)
  {
    forall i | 0 <= i < |a.lbs|
      ensures Keeps(a.lbs[i], c.lbs[i]) && a.lbs[i].listeners == c.lbs[i].listeners
    {
      assert Keeps(a.lbs[i], b.lbs[i]) && Keeps(b.lbs[i], c.lbs[i]);
    }
  }

  ghost predicate AtMostOneOn(c: State, port: string) {
    forall f, g :: On(c, f, port) && On(c, g, port) ==> f == g
  }

  /**
    The answer to a query by port holds only floating IPs on that port exactly when the port is not
    empty or every floating IP is unbound: an empty port is left out of the query.
   */
  lemma PortFilterExact(fips: seq<Fip>, port: string)
    ensures (forall i :: 0 <= i < |fips| && Hits(OnPort(port), fips[i]) ==> fips[i].port == port)
            <==> port != "" || forall i :: 0 <= i < |fips| ==> fips[i].port == ""
  {
    if port == "" && exists i :: 0 <= i < |fips| && fips[i].port != "" {
      var i :| 0 <= i < |fips| && fips[i].port != "";
      assert Hits(OnPort(port), fips[i]);
    }
  }

  lemma PortsWhenNoneOn(c: State, port: string)
    ensures NoneOn(c, port) <==> forall f :: 0 <= f < |c.fips| ==> c.fips[f].port != port
  {
    forall f | 0 <= f < |c.fips|
      ensures On(c, f, port) <==> c.fips[f].port == port
    {
    }
  }

  // ---- single calls -----------------------------------------------------------------------

  /** getFloatingIPByPortID: the first floating IP listed for the port, if any. */
  method GetFloatingIPByPortID(cloud: Cloud, lb: Lb) returns (r: Result<Option<Fip>, ()>, ghost listed: Reply<seq<Fip>>)
    requires cloud.Valid() && cloud.pc == FindFip(lb)
    modifies cloud
    ensures cloud.Valid() && cloud.job == old(cloud.job)
    ensures cloud.log == old(cloud.log) + [ListFips(OnPort(lb.port), listed)]
    ensures r == if !listed.Answer? then Err(()) else if listed.value == [] then Ok(None) else Ok(Some(listed.value[0]))
    ensures r.Err? ==> cloud.pc == Done(false)
    ensures r == Ok(None) ==> cloud.pc == (if cloud.job.private then Settled(lb, lb.vip) else Project(lb))
    ensures r.Ok? && r.value.Some? ==>
              cloud.pc == if cloud.job.private then Detach(lb, r.value.value) else Settled(lb, r.value.value.addr)
    ensures r == Ok(None) ==> NoneOn(cloud.st, lb.port)
    ensures r.Ok? && r.value.Some? ==>
              r.value.value.id < |cloud.st.fips| && cloud.st.fips[r.value.value.id] == r.value.value
    ensures r.Ok? && r.value.Some? && lb.port != "" ==> On(cloud.st, r.value.value.id, lb.port)
    ensures cloud.alone ==> Drift(old(cloud.st), cloud.st)
    ensures cloud.cooperative ==> r.Ok? && cloud.st == old(cloud.st)
  {
    var ips := cloud.ListFips(OnPort(lb.port));
    if !ips.Answer? {
      return Err(()), ips;
    }
    assert forall f :: On(cloud.st, f, lb.port) ==> Hits(OnPort(lb.port), cloud.st.fips[f]);
    if |ips.value| == 0 {
      return Ok(None), ips;
    }
    return Ok(Some(ips.value[0])), ips;
  }

  method DetachFloatingIP(cloud: Cloud, lb: Lb, fip: Fip) returns (r: Reply<Fip>)
    requires cloud.Valid() && cloud.pc == Detach(lb, fip)
    modifies cloud
    ensures cloud.Valid() && cloud.job == old(cloud.job)
    ensures cloud.pc == if r.Answer? then Settled(lb, lb.vip) else Done(false)
    ensures cloud.alone ==> LbsDrift(old(cloud.st), cloud.st)
    ensures cloud.cooperative ==> cloud.st.lbs == old(cloud.st).lbs
    ensures cloud.alone && fip.id < |old(cloud.st).fips| ==>
              var fips := old(cloud.st).fips;
              var detached := fips[fip.id := fips[fip.id].(port := "")];
              (cloud.st.fips == fips && !r.Answer?) || cloud.st.fips == detached
    ensures cloud.cooperative && fip.id < |old(cloud.st).fips| ==> r.Answer?
  {
    r := cloud.UpdateFip(fip.id, None);
  }

  method LookUpNetwork(cloud: Cloud, lb: Lb) returns (r: Result<(string, string), ()>)
    requires cloud.Valid() && cloud.pc == Project(lb)
    modifies cloud
    ensures cloud.Valid() && cloud.job == old(cloud.job)
    ensures cloud.pc == if r.Ok? then Free(lb, r.value.0, r.value.1) else Done(false)
    ensures r.Ok? ==> cloud.log == old(cloud.log) + [Lookup(NetworkProject, Answer(r.value.0)),
                                                     Lookup(PoolId, Answer(r.value.1))]
    ensures cloud.alone ==> Drift(old(cloud.st), cloud.st)
    ensures cloud.cooperative ==> r.Ok? && cloud.st == old(cloud.st)
  {
    var project := cloud.Lookup(NetworkProject);
    if !project.Answer? {
      return Err(());
    }
    ghost var before := cloud.st;
    var pool := cloud.Lookup(PoolId);
    if cloud.alone {
      assert forall i :: 0 <= i < |before.lbs| ==> Keeps(before.lbs[i], cloud.st.lbs[i]);
    }
    if !pool.Answer? {
      return Err(());
    }
    return Ok((project.value, pool.value));
  }

  method ListFree(cloud: Cloud, lb: Lb, project: string, pool: string) returns (r: Reply<seq<Fip>>)
    requires cloud.Valid() && cloud.pc == Free(lb, project, pool)
    modifies cloud
    ensures cloud.Valid() && cloud.job == old(cloud.job)
    ensures cloud.pc == if r.Answer? then NextCandidate(lb, project, pool, r.value, None) else Done(false)
    ensures cloud.log == old(cloud.log) + [ListFips(DownIn(pool, project), r)]
    ensures r.Answer? ==> AnswersFips(r.value, cloud.st.fips, DownIn(pool, project))
    ensures cloud.alone ==> Drift(old(cloud.st), cloud.st)
    ensures cloud.cooperative ==> r.Answer? && cloud.st == old(cloud.st)
  {
    r := cloud.ListFips(DownIn(pool, project));
  }

  method CountForwardings(cloud: Cloud, fip: Fip, ghost was: Pc) returns (r: Reply<nat>)
    requires cloud.Valid() && cloud.pc == was && was.Forwards? && was.cands != [] && was.cands[0] == fip
    modifies cloud
    ensures cloud.Valid() && cloud.job == old(cloud.job)
    ensures cloud.pc == AfterForwards(was, r)
    ensures r.Answer? ==> fip.id < |cloud.st.fips| && r.value == cloud.st.fips[fip.id].forwards
    ensures cloud.alone ==> Drift(old(cloud.st), cloud.st)
    ensures cloud.cooperative ==> cloud.st == old(cloud.st) && (fip.id < |cloud.st.fips| ==> r.Answer?)
  {
    r := cloud.ListForwardings(fip.id);
  }

  method BindCandidate(cloud: Cloud, lb: Lb, fip: Fip, ghost was: Pc) returns (r: Reply<Fip>)
    requires cloud.Valid() && cloud.pc == was && was.Bind? && was.lb == lb && was.cands != [] && was.cands[0] == fip
    modifies cloud
    ensures cloud.Valid() && cloud.job == old(cloud.job)
    ensures cloud.pc == if r.Answer? then NextCandidate(lb, was.project, was.pool, was.cands[1..], Some(r.value))
                        else Done(false)
    ensures cloud.alone ==> LbsDrift(old(cloud.st), cloud.st)
    ensures cloud.cooperative ==> cloud.st.lbs == old(cloud.st).lbs
    ensures cloud.alone && fip.id < |old(cloud.st).fips| ==>
              var fips := old(cloud.st).fips;
              || (cloud.st.fips == fips && !r.Answer?)
              || (cloud.st.fips == fips[fip.id := fips[fip.id].(port := lb.port)]
                  && Vacant(fips, lb.port, fips[fip.id].pool, fip.id)
                  && (r.Answer? ==> r.value == cloud.st.fips[fip.id]))
    ensures cloud.cooperative && fip.id < |old(cloud.st).fips| && lb.port != "" && NoneOn(old(cloud.st), lb.port) ==>
              r.Answer?
  {
    PortsWhenNoneOn(cloud.st, lb.port);
    r := cloud.UpdateFip(fip.id, Some(lb.port));
  }

  function Offered(listed: Reply<seq<string>>): seq<string> {
    if listed.Answer? then listed.value else []
  }

  method FindSubnets(cloud: Cloud, lb: Lb, project: string, pool: string)
    returns (r: Result<seq<string>, ()>, ghost listed: Reply<seq<string>>)
    requires cloud.Valid() && cloud.pc == Subnets(lb, project, pool)
    modifies cloud
    ensures cloud.Valid() && cloud.job == old(cloud.job)
    ensures cloud.pc == if r.Ok? then NewFip(lb, project, pool, r.value) else Done(false)
    ensures cloud.log == old(cloud.log) + [ListSubnets(pool, listed)]
    ensures if r.Ok? then r.value == Offered(listed) != [] else Offered(listed) == []
    ensures cloud.alone ==> Drift(old(cloud.st), cloud.st)
    ensures cloud.cooperative ==> r.Ok? && cloud.st == old(cloud.st)
  {
    var subnets := cloud.ListSubnets(pool);
    listed := subnets;
    if !subnets.Answer? || |subnets.value| == 0 {
      return Err(()), listed;
    }
    return Ok(subnets.value), listed;
  }

  method CreateOnSubnet(cloud: Cloud, subnet: string, ghost was: Pc, lb: Lb, project: string, pool: string)
    returns (r: Reply<Fip>)
    requires cloud.Valid() && cloud.pc == was && was.NewFip? && was.subnets != [] && was.subnets[0] == subnet
    requires was.lb == lb && was.project == project && was.pool == pool
    modifies cloud
    ensures cloud.Valid() && cloud.job == old(cloud.job)
    ensures cloud.pc == AfterNewFip(was, r)
    ensures cloud.log == old(cloud.log) + [CreateFip(lb.port, pool, project, subnet, r)]
    ensures cloud.alone ==> LbsDrift(old(cloud.st), cloud.st)
    ensures cloud.cooperative ==> cloud.st.lbs == old(cloud.st).lbs
    ensures cloud.alone ==> AddsAtMost(old(cloud.st).fips, cloud.st.fips, lb.port, pool, project, r)
    ensures cloud.cooperative && lb.port != "" && NoneOn(old(cloud.st), lb.port) ==> r.Answer?
  {
    PortsWhenNoneOn(cloud.st, lb.port);
    r := cloud.CreateFip(lb.port, pool, project, subnet);
  }

  // ---- the loops --------------------------------------------------------------------------

  /** One round of the loop over free floating IPs. */
  method TryCandidate(cloud: Cloud, lb: Lb, project: string, pool: string, cands: seq<Fip>, i: nat,
                      floatIP: Option<Fip>,
                      ghost start: State, ghost was: Move)
    returns (r: Result<Option<Fip>, ()>, ghost move: Move)
    requires cloud.Valid() && i < |cands| && cloud.pc == Forwards(lb, project, pool, cands[i..], floatIP)
    requires cloud.alone ==> LbsDrift(start, cloud.st) && (NoneOn(start, lb.port) ==>
               Scanned(start.fips, cloud.st.fips, cands, i, lb.port, pool, project, floatIP, was))
    requires Coherent(start)
    modifies cloud
    ensures cloud.Valid() && cloud.job == old(cloud.job)
    ensures cloud.pc == if r.Ok? then NextCandidate(lb, project, pool, cands[i + 1..], r.value) else Done(false)
    ensures cloud.alone ==> LbsDrift(start, cloud.st)
    ensures cloud.cooperative ==> cloud.st.lbs == old(cloud.st).lbs
    ensures cloud.alone && NoneOn(start, lb.port) ==>
              if r.Ok? then Scanned(start.fips, cloud.st.fips, cands, i + 1, lb.port, pool, project, r.value, move)
              else Applies(move, start.fips, cloud.st.fips, lb.port) && (move.Nothing? || move.Attached?)
    ensures cloud.cooperative && lb.port != "" && NoneOn(start, lb.port) && r.Err? ==>
              move.Attached? && !AtMostOneSuitable(start.fips, pool, project)
  {
    move := was;
    var fip := cands[i];
    assert cands[i..][0] == fip && cands[i..][1..] == cands[i + 1..];
    ghost var before := cloud.st;
    ghost var mine := cloud.alone && NoneOn(start, lb.port);
    var count := CountForwardings(cloud, fip, cloud.pc);
    if cloud.alone {
      LbsDriftTransitive(start, before, cloud.st);
    }
    if !count.Answer? {
      return Err(()), move;
    }
    if fip.port == "" && count.value == 0 {
      ghost var unbound := cloud.st;
      var bound := BindCandidate(cloud, lb, fip, cloud.pc);
      if cloud.alone {
        LbsDriftTransitive(start, unbound, cloud.st);
      }
      if mine {
        move := ScanBinds(start.fips, unbound.fips, cloud.st.fips, cands, i, lb.port, pool, project,
                          floatIP, move, bound);
      }
      if !bound.Answer? {
        if cloud.cooperative && lb.port != "" && mine {
          RefusedSecond(start, unbound, cands, i, lb.port, pool, project, floatIP, was);
        }
        return Err(()), move;
      }
      return Ok(Some(bound.value)), move;
    }
    if mine {
      ScanSkips(start.fips, cloud.st.fips, cands, i, lb.port, pool, project, floatIP, move);
    }
    return Ok(floatIP), move;
  }

  /** A cooperative cloud refuses a candidate only because another one is bound already. */
  lemma RefusedSecond(start: State, now: State, cands: seq<Fip>, i: nat, port: string, pool: string, project: string,
                      floatIP: Option<Fip>, move: Move)
    requires i < |cands| && Scanned(start.fips, now.fips, cands, i, port, pool, project, floatIP, move)
    requires cands[i].port == "" && cands[i].id < |now.fips| && now.fips[cands[i].id].forwards == 0
    requires !NoneOn(now, port)
    ensures floatIP.Some? && !AtMostOneSuitable(start.fips, pool, project)
  {
    if floatIP == None {
      PortsWhenNoneOn(now, port);
    } else {
      assert Suitable(start.fips[cands[i].id], pool, project) && Suitable(start.fips[floatIP.value.id], pool, project);
    }
  }

  /**
    The loop over free floating IPs. It does not stop after a success, so a second suitable one makes
    the call fail, with the first one bound.
   */
  method BindFree(cloud: Cloud, lb: Lb, project: string, pool: string)
    returns (r: Result<Option<Fip>, ()>, ghost move: Move)
    requires cloud.Valid() && cloud.pc == Free(lb, project, pool)
    modifies cloud
    ensures cloud.Valid() && cloud.job == old(cloud.job)
    ensures r.Err? ==> cloud.pc == Done(false)
    ensures r == Ok(None) ==> cloud.pc == Subnets(lb, project, pool)
    ensures r.Ok? && r.value.Some? ==> cloud.pc == Settled(lb, r.value.value.addr)
    ensures cloud.alone ==> LbsDrift(old(cloud.st), cloud.st)
    ensures cloud.cooperative ==> cloud.st.lbs == old(cloud.st).lbs
    ensures cloud.alone && NoneOn(old(cloud.st), lb.port) ==>
              && Applies(move, old(cloud.st).fips, cloud.st.fips, lb.port) && (move.Nothing? || move.Attached?)
              && (r == Ok(None) ==> move == Nothing && NoneSuitable(cloud.st.fips, pool, project))
              && (r.Ok? && r.value.Some? ==> SomeOn(cloud.st, lb.port, r.value.value.addr))
    ensures cloud.alone && NoneOn(old(cloud.st), lb.port) && r.Ok? ==>
              AtMostOneSuitable(old(cloud.st).fips, pool, project)
    ensures cloud.cooperative && lb.port != "" && NoneOn(old(cloud.st), lb.port) && r.Err? ==>
              move.Attached? && !AtMostOneSuitable(old(cloud.st).fips, pool, project)
  {
    ghost var start := cloud.st;
    move := Nothing;
    var listed := ListFree(cloud, lb, project, pool);
    if !listed.Answer? {
      return Err(()), Nothing;
    }
    var cands := listed.value;
    var floatIP: Option<Fip> := None;
    ghost var mine := cloud.alone && NoneOn(start, lb.port);
    assert cands[0..] == cands;
    PortsWhenNoneOn(start, lb.port);
    for i := 0 to |cands|
      invariant cloud.Valid() && cloud.job == old(cloud.job)
      invariant cloud.pc == NextCandidate(lb, project, pool, cands[i..], floatIP)
      invariant cloud.alone ==> LbsDrift(start, cloud.st)
      invariant cloud.cooperative ==> cloud.st.lbs == start.lbs
      invariant mine ==> Scanned(start.fips, cloud.st.fips, cands, i, lb.port, pool, project, floatIP, move)
    {
      var tried;
      tried, move := TryCandidate(cloud, lb, project, pool, cands, i, floatIP, start, move);
      if tried.Err? {
        return Err(()), move;
      }
      floatIP := tried.value;
    }
    if mine {
      ScanComplete(start.fips, cloud.st.fips, cands, lb.port, pool, project, floatIP, move);
    }
    return Ok(floatIP), move;
  }

  lemma ScanComplete(start: seq<Fip>, now: seq<Fip>, cands: seq<Fip>, port: string, pool: string, project: string,
                     floatIP: Option<Fip>, move: Move)
    requires Scanned(start, now, cands, |cands|, port, pool, project, floatIP, move)
    requires forall f :: 0 <= f < |start| ==> start[f].id == f
    ensures AtMostOneSuitable(start, pool, project)
    ensures floatIP == None ==> NoneSuitable(start, pool, project)
    ensures floatIP.Some? ==>
              floatIP.value.id < |now| && now[floatIP.value.id] == floatIP.value && floatIP.value.port == port
  {
    forall f | 0 <= f < |start| && Suitable(start[f], pool, project)
      ensures floatIP.Some? && f == floatIP.value.id
    {
      assert start[f] in cands;
      var k :| 0 <= k < |cands| && cands[k] == start[f];
    }
  }

  /** Where the scan stands before candidate `i`. */
  ghost predicate Scanned(start: seq<Fip>, now: seq<Fip>, cands: seq<Fip>, i: nat, port: string, pool: string,
                          project: string,
                          floatIP: Option<Fip>, move: Move) {
    && i <= |cands| && AnswersFips(cands, start, DownIn(pool, project))
    && (forall f :: 0 <= f < |start| ==> start[f].port != port)
    && match floatIP
       case None =>
         && move == Nothing && now == start
         && forall k :: 0 <= k < i ==> !Suitable(cands[k], pool, project)
       case Some(f) =>
         && move == Attached(f.id) && Applies(move, start, now, port)
         && now[f.id] == f && f.pool == pool && Suitable(start[f.id], pool, project)
         && (forall k :: i <= k < |cands| ==> cands[k].id != f.id)
         && forall k :: 0 <= k < i && Suitable(cands[k], pool, project) ==> cands[k].id == f.id
  }

  lemma ScanSkips(start: seq<Fip>, now: seq<Fip>, cands: seq<Fip>, i: nat, port: string, pool: string, project: string,
                  floatIP: Option<Fip>, move: Move)
    requires i < |cands| && Scanned(start, now, cands, i, port, pool, project, floatIP, move)
    requires cands[i].id < |now| && !(cands[i].port == "" && now[cands[i].id].forwards == 0)
    ensures Scanned(start, now, cands, i + 1, port, pool, project, floatIP, move)
  {
  }

  /** Binding a candidate: the first one becomes the move of the call, a later one is refused. */
  lemma ScanBinds(start: seq<Fip>, before: seq<Fip>, now: seq<Fip>, cands: seq<Fip>, i: nat, port: string, pool: string,
                  project: string, floatIP: Option<Fip>, move: Move, bound: Reply<Fip>) returns (move': Move)
    requires i < |cands| && Scanned(start, before, cands, i, port, pool, project, floatIP, move)
    requires forall f :: 0 <= f < |start| ==> start[f].id == f
    requires cands[i].id < |before| && cands[i].port == "" && before[cands[i].id].forwards == 0
    requires || (now == before && !bound.Answer?)
             || (now == before[cands[i].id := before[cands[i].id].(port := port)]
                 && Vacant(before, port, before[cands[i].id].pool, cands[i].id)
                 && (bound.Answer? ==> bound.value == now[cands[i].id]))
    ensures Applies(move', start, now, port) && (move'.Nothing? || move'.Attached?)
    ensures floatIP.Some? ==> move'.Attached?
    ensures bound.Answer? ==> Scanned(start, now, cands, i + 1, port, pool, project, Some(bound.value), move')
  {
    var f := cands[i].id;
    if floatIP.Some? {
      move' := move;
      assert before[floatIP.value.id].port == port && before[floatIP.value.id].pool == pool;
      assert before[f] == start[f] && before[f].pool == pool;
      assert now == before && !bound.Answer?;
    } else if now == before {
      move' := Nothing;
      if bound.Answer? {
        move' := Attached(f);
      }
    } else {
      move' := Attached(f);
    }
  }

  /** The attempts made: one per subnet, in the order of the subnets. */
  ghost function Attempts(port: string, pool: string, project: string, subnets: seq<string>,
                          tried: seq<Reply<Fip>>): seq<Event>
    requires |tried| <= |subnets|
  {
    if tried == [] then []
    else
      var last := |tried| - 1;
      Attempts(port, pool, project, subnets, tried[..last])
      + [CreateFip(port, pool, project, subnets[last], tried[last])]
  }

  lemma AttemptsExtend(port: string, pool: string, project: string, subnets: seq<string>, tried: seq<Reply<Fip>>,
                       made: Reply<Fip>)
    requires |tried| < |subnets|
    ensures Attempts(port, pool, project, subnets, tried + [made])
            == Attempts(port, pool, project, subnets, tried) + [CreateFip(port, pool, project, subnets[|tried|], made)]
  {
    assert (tried + [made])[..|tried|] == tried;
  }

  ghost predicate Refused(tried: seq<Reply<Fip>>) {
    forall k :: 0 <= k < |tried| ==> !tried[k].Answer?
  }

  /** All subnets before the last one tried refused; the last one accepted, or all were tried in vain. */
  ghost predicate FirstAccepts(subnets: seq<string>, tried: seq<Reply<Fip>>, r: Result<Fip, ()>) {
    match r
    case Ok(f) => 1 <= |tried| <= |subnets| && Refused(tried[..|tried| - 1]) && tried[|tried| - 1] == Answer(f)
    case Err(_) => |tried| == |subnets| && Refused(tried)
  }

  /** The loop over subnets: the first one that accepts wins. */
  method CreateFloatingIP(cloud: Cloud, lb: Lb, project: string, pool: string)
    returns (r: Result<Fip, ()>, ghost move: Move, ghost listed: Reply<seq<string>>, ghost tried: seq<Reply<Fip>>)
    requires cloud.Valid() && cloud.pc == Subnets(lb, project, pool)
    modifies cloud
    ensures cloud.Valid() && cloud.job == old(cloud.job)
    ensures cloud.pc == if r.Ok? then Settled(lb, r.value.addr) else Done(false)
    ensures FirstAccepts(Offered(listed), tried, r)
    ensures cloud.log == old(cloud.log) + [ListSubnets(pool, listed)]
                         + Attempts(lb.port, pool, project, Offered(listed), tried)
    ensures cloud.alone ==> LbsDrift(old(cloud.st), cloud.st)
    ensures cloud.cooperative ==> cloud.st.lbs == old(cloud.st).lbs
    ensures cloud.alone && NoneOn(old(cloud.st), lb.port) && NoneSuitable(old(cloud.st).fips, pool, project) ==>
              && Applies(move, old(cloud.st).fips, cloud.st.fips, lb.port) && (move == Nothing || move.Made?)
              && (r.Ok? ==> SomeOn(cloud.st, lb.port, r.value.addr))
    ensures cloud.cooperative && lb.port != "" && NoneOn(old(cloud.st), lb.port) ==> r.Ok?
  {
    ghost var start := cloud.st;
    move, tried := Nothing, [];
    var subnets;
    subnets, listed := FindSubnets(cloud, lb, project, pool);
    if subnets.Err? {
      return Err(()), Nothing, listed, [];
    }
    r, move, tried := TrySubnets(cloud, lb, project, pool, subnets.value, start);
  }

  method TrySubnets(cloud: Cloud, lb: Lb, project: string, pool: string, found: seq<string>, ghost start: State)
    returns (r: Result<Fip, ()>, ghost move: Move, ghost tried: seq<Reply<Fip>>)
    requires cloud.Valid() && found != [] && cloud.pc == NewFip(lb, project, pool, found)
    requires cloud.alone ==> LbsDrift(start, cloud.st) && cloud.st.fips == start.fips
    modifies cloud
    ensures cloud.Valid() && cloud.job == old(cloud.job)
    ensures cloud.pc == if r.Ok? then Settled(lb, r.value.addr) else Done(false)
    ensures FirstAccepts(found, tried, r)
    ensures cloud.log == old(cloud.log) + Attempts(lb.port, pool, project, found, tried)
    ensures cloud.alone ==> LbsDrift(start, cloud.st)
    ensures cloud.cooperative ==> cloud.st.lbs == old(cloud.st).lbs
    ensures cloud.alone && NoneSuitable(start.fips, pool, project) ==>
              && CreatedSoFar(start, cloud.st, lb.port, pool, project, move)
              && (r.Ok? ==> SomeOn(cloud.st, lb.port, r.value.addr))
    ensures cloud.cooperative && lb.port != "" && NoneOn(old(cloud.st), lb.port) ==> r.Ok?
  {
    move, tried := Nothing, [];
    ghost var asked, mine := cloud.log, cloud.alone && NoneSuitable(start.fips, pool, project);
    assert found[0..] == found;
    for i := 0 to |found|
      invariant cloud.Valid() && cloud.job == old(cloud.job)
      invariant cloud.pc == if i < |found| then NewFip(lb, project, pool, found[i..]) else Done(false)
      invariant |tried| == i && Refused(tried) && cloud.log == asked + Attempts(lb.port, pool, project, found, tried)
      invariant cloud.alone ==> LbsDrift(start, cloud.st)
      invariant cloud.cooperative ==> cloud.st.lbs == old(cloud.st).lbs
      invariant mine ==> CreatedSoFar(start, cloud.st, lb.port, pool, project, move)
      invariant cloud.cooperative && lb.port != "" && NoneOn(old(cloud.st), lb.port) ==>
                i == 0 && cloud.st == old(cloud.st)
    {
      ghost var before := cloud.st;
      var made := TrySubnet(cloud, lb, project, pool, found, i, start);
      AttemptsExtend(lb.port, pool, project, found, tried, made);
      if mine {
        move := CreatesOnce(start, before, cloud.st, lb.port, pool, project, move, made);
      }
      tried := tried + [made];
      if made.Answer? {
        assert tried[..|tried| - 1] == tried[..i];
        return Ok(made.value), move, tried;
      }
    }
    return Err(()), move, tried;
  }

  ghost predicate CreatedSoFar(start: State, now: State, port: string, pool: string, project: string, move: Move) {
    Applies(move, start.fips, now.fips, port) && (move == Nothing || move == Made(pool, project))
  }

  /** What one attempt can do to the floating IPs: nothing, or one new one on a port that carried none of the pool. */
  ghost predicate AddsAtMost(before: seq<Fip>, now: seq<Fip>, port: string, pool: string, project: string,
                             made: Reply<Fip>) {
    || (now == before && !made.Answer?)
    || (Vacant(before, port, pool, |before|)
        && |now| == |before| + 1 && now == before + [now[|before|]]
        && var f := now[|before|];
           f.port == port && f.pool == pool && f.project == project && (made.Answer? ==> made.value == f))
  }

  lemma MadeOccupies(a: seq<Fip>, b: seq<Fip>, port: string, pool: string, project: string)
    requires Applies(Made(pool, project), a, b, port)
    ensures !Vacant(b, port, pool, |b|)
  {
    assert b[|a|].port == port && b[|a|].pool == pool;
  }

  /** After a creation that took effect, all later attempts are refused. */
  lemma CreatesOnce(start: State, before: State, now: State, port: string, pool: string, project: string, move: Move,
                    made: Reply<Fip>)
    returns (move': Move)
    requires NoneSuitable(start.fips, pool, project) && CreatedSoFar(start, before, port, pool, project, move)
    requires AddsAtMost(before.fips, now.fips, port, pool, project, made)
    ensures CreatedSoFar(start, now, port, pool, project, move')
    ensures made.Answer? ==> SomeOn(now, port, made.value.addr)
  {
    if move.Made? {
      MadeOccupies(start.fips, before.fips, port, pool, project);
    }
    move' := if now.fips == before.fips then move else Made(pool, project);
    if now.fips != before.fips {
      assert On(now, |before.fips|, port);
    }
  }

  method TrySubnet(cloud: Cloud, lb: Lb, project: string, pool: string, found: seq<string>, i: nat, ghost start: State)
    returns (made: Reply<Fip>)
    requires cloud.Valid() && i < |found| && cloud.pc == NewFip(lb, project, pool, found[i..])
    requires cloud.alone ==> LbsDrift(start, cloud.st)
    modifies cloud
    ensures cloud.Valid() && cloud.job == old(cloud.job)
    ensures cloud.pc == if made.Answer? then Settled(lb, made.value.addr)
                        else if i + 1 < |found| then NewFip(lb, project, pool, found[i + 1..]) else Done(false)
    ensures cloud.log == old(cloud.log) + [CreateFip(lb.port, pool, project, found[i], made)]
    ensures cloud.alone ==> LbsDrift(start, cloud.st)
    ensures cloud.cooperative ==> cloud.st.lbs == old(cloud.st).lbs
    ensures cloud.alone ==> AddsAtMost(old(cloud.st).fips, cloud.st.fips, lb.port, pool, project, made)
    ensures cloud.cooperative && lb.port != "" && NoneOn(old(cloud.st), lb.port) ==> made.Answer?
  {
    assert found[i..][0] == found[i] && found[i..][1..] == found[i + 1..];
    ghost var before := cloud.st;
    made := CreateOnSubnet(cloud, found[i], cloud.pc, lb, project, pool);
    if cloud.alone {
      LbsDriftTransitive(start, before, cloud.st);
    }
  }

  // ---- AttachFloatingIP -------------------------------------------------------------------

  /**
    Without interference exactly one move is made. On public success the returned address is bound to
    the VIP port; on private success the VIP is returned, and the port is free of floating IPs exactly
    when it carried at most one before.
   */
  method AttachFloatingIP(cloud: Cloud, lb: Lb, private: bool) returns (r: Result<string, ()>, ghost move: Move)
    requires cloud.Valid() && cloud.pc == FindFip(lb) && private == cloud.job.private
    modifies cloud
    ensures cloud.Valid() && cloud.job == old(cloud.job)
    ensures cloud.pc == if r.Ok? then Settled(lb, r.value) else Done(false)
    ensures cloud.alone ==> LbsDrift(old(cloud.st), cloud.st)
    ensures cloud.cooperative ==> cloud.st.lbs == old(cloud.st).lbs
    ensures cloud.alone && lb.port != "" ==> Applies(move, old(cloud.st).fips, cloud.st.fips, lb.port)
    ensures cloud.alone && lb.port != "" && (move.Attached? || move.Made?) ==>
              !private && NoneOn(old(cloud.st), lb.port)
    ensures cloud.alone && lb.port != "" && move.Detached? ==> private
    ensures cloud.alone && lb.port != "" && private && r.Ok? ==>
              r.value == lb.vip && (NoneOn(cloud.st, lb.port) <==> AtMostOneOn(old(cloud.st), lb.port))
    ensures cloud.alone && lb.port != "" && !private && r.Ok? ==> SomeOn(cloud.st, lb.port, r.value)
    ensures cloud.cooperative && lb.port != "" && r.Err? ==> move.Attached?
  {
    ghost var start := cloud.st;
    move := Nothing;
    var floatIP, listed := GetFloatingIPByPortID(cloud, lb);
    if floatIP.Err? {
      return Err(()), Nothing;
    }
    ghost var found := cloud.st;
    if cloud.alone {
      SameFips(start, found, lb.port);
    }
    if private {
      if floatIP.value.Some? {
        var fip := floatIP.value.value;
        var detached := DetachFloatingIP(cloud, lb, fip);
        if cloud.alone {
          LbsDriftTransitive(start, found, cloud.st);
        }
        if cloud.alone && lb.port != "" {
          move := DetachMove(start, cloud.st, fip.id, lb.port, detached.Answer?);
        }
        if !detached.Answer? {
          return Err(()), move;
        }
      }
      return Ok(lb.vip), move;
    }
    if floatIP.value.Some? {
      assert cloud.alone && lb.port != "" ==> On(cloud.st, floatIP.value.value.id, lb.port);
      return Ok(floatIP.value.value.addr), Nothing;
    }
    r, move := FindAddress(cloud, lb);
    if cloud.alone {
      LbsDriftTransitive(start, found, cloud.st);
    }
  }

  lemma SameFips(a: State, b: State, port: string)
    requires a.fips == b.fips
    ensures NoneOn(a, port) <==> NoneOn(b, port)
  {
    assert forall f :: On(a, f, port) <==> On(b, f, port);
  }

  lemma DetachMove(a: State, b: State, f: nat, port: string, answered: bool) returns (move: Move)
    requires port != "" && On(a, f, port)
    requires (b.fips == a.fips && !answered) || b.fips == a.fips[f := a.fips[f].(port := "")]
    ensures Applies(move, a.fips, b.fips, port) && (move == Nothing || move == Detached(f))
    ensures answered ==> (NoneOn(b, port) <==> AtMostOneOn(a, port))
  {
    if b.fips == a.fips {
      move := Nothing;
    } else {
      move := Detached(f);
      assert forall g :: On(b, g, port) <==> On(a, g, port) && g != f;
    }
  }

  /** The public case with nothing on the port yet: bind a free address or create one. */
  method FindAddress(cloud: Cloud, lb: Lb) returns (r: Result<string, ()>, ghost move: Move)
    requires cloud.Valid() && cloud.pc == Project(lb)
    modifies cloud
    ensures cloud.Valid() && cloud.job == old(cloud.job)
    ensures cloud.pc == if r.Ok? then Settled(lb, r.value) else Done(false)
    ensures cloud.alone ==> LbsDrift(old(cloud.st), cloud.st)
    ensures cloud.cooperative ==> cloud.st.lbs == old(cloud.st).lbs
    ensures cloud.alone && NoneOn(old(cloud.st), lb.port) ==>
              && Applies(move, old(cloud.st).fips, cloud.st.fips, lb.port) && !move.Detached?
              && (r.Ok? ==> SomeOn(cloud.st, lb.port, r.value))
    ensures cloud.cooperative && lb.port != "" && NoneOn(old(cloud.st), lb.port) && r.Err? ==> move.Attached?
  {
    ghost var start := cloud.st;
    var network := LookUpNetwork(cloud, lb);
    if network.Err? {
      return Err(()), Nothing;
    }
    ghost var looked := cloud.st;
    SameFips(start, looked.(fips := start.fips), lb.port);
    if cloud.alone {
      SameFips(start, looked, lb.port);
    }
    var (project, pool) := network.value;
    var bound;
    bound, move := BindFree(cloud, lb, project, pool);
    if cloud.alone {
      LbsDriftTransitive(start, looked, cloud.st);
    }
    if bound.Err? {
      return Err(()), move;
    }
    if bound.value.Some? {
      return Ok(bound.value.value.addr), move;
    }
    ghost var scanned := cloud.st;
    if cloud.alone && NoneOn(start, lb.port) {
      SameFips(start, scanned, lb.port);
    }
    var made, moved, listed, tried := CreateFloatingIP(cloud, lb, project, pool);
    if cloud.alone {
      LbsDriftTransitive(start, scanned, cloud.st);
    }
    if made.Err? {
      return Err(()), moved;
    }
    return Ok(made.value.addr), moved;
  }
}
