// The allowed CIDRs of the listeners over whole runs, whatever the other namespaces' workers do.
module AllowListRuns {
  import opened Text
  import opened CloudModel
  import opened IpSet
  import opened Program
  import opened Interleaving

  /** The first `n` listeners have exactly the wanted set of CIDRs (an empty set asks for nothing). */
  ghost predicate AlignedUpTo(ls: seq<Listener>, n: int, ranges: set<string>) {
    ranges != {} ==> forall k :: 0 <= k < |ls| && k < n ==> Elems(ls[k].cidrs) == ranges
  }

  /** The loop has dealt with all listeners but `rest`, which are as they were listed. */
  ghost predicate Remaining(ls: seq<Listener>, rest: seq<Listener>, ranges: set<string>) {
    |rest| <= |ls| && ls[|ls| - |rest|..] == rest && AlignedUpTo(ls, |ls| - |rest|, ranges)
  }

  ghost predicate AllAligned(c: State, name: string, ranges: set<string>) {
    forall i :: LiveNamed(c, i, name) ==> AlignedUpTo(c.lbs[i].listeners, |c.lbs[i].listeners|, ranges)
  }

  ghost predicate ListGood(c: State, job: Job, pc: Pc) {
    match pc
    case Find | SubnetOf | FlavorOf | Create | Listeners(_) | Drop(_) | AwaitGone(_, _) => true
    case Await(id, after, _) =>
      after.Some? ==> id < |c.lbs| && Remaining(c.lbs[id].listeners, after.value, job.ranges)
    case Resolve(lb, rest) => lb.id < |c.lbs| && Remaining(c.lbs[lb.id].listeners, rest, job.ranges)
    case Adjust(lb, l, rest) => lb.id < |c.lbs| && Remaining(c.lbs[lb.id].listeners, [l] + rest, job.ranges)
    case Done(ok) => ok && job.op.Reconcile? ==> AllAligned(c, LbName(job.ns), job.ranges)
    case _ => AllAligned(c, LbName(job.ns), job.ranges)
  }

  ghost predicate ListInv(w: World) {
    forall ns :: ns in w.workers ==> ListGood(w.cloud, w.workers[ns].job, w.workers[ns].pc)
  }

  // ---- steps that are not the worker's own -------------------------------------------------

  ghost predicate SparesListeners(a: State, b: State, name: string) {
    forall i :: 0 <= i < |a.lbs| && a.lbs[i].name == name ==> i < |b.lbs| && b.lbs[i].listeners == a.lbs[i].listeners
  }

  lemma SparedListGood(a: State, b: State, job: Job, pc: Pc)
    requires Good(a, job, pc) && ListGood(a, job, pc)
    requires Spares(a, b, LbName(job.ns)) && SparesListeners(a, b, LbName(job.ns))
    ensures ListGood(b, job, pc)
  {
    SparedLive(a, b, LbName(job.ns));
    if AllAligned(a, LbName(job.ns), job.ranges) {
      forall i | LiveNamed(b, i, LbName(job.ns))
        ensures AlignedUpTo(b.lbs[i].listeners, |b.lbs[i].listeners|, job.ranges)
      {
        assert LiveNamed(a, i, LbName(job.ns));
      }
    }
  }

  lemma EnvironmentSparesListeners(a: State, b: State, name: string)
    requires EnvironmentStep(a, b) && Managed(name)
    ensures SparesListeners(a, b, name)
  {
  }

  // ---- the worker's own steps --------------------------------------------------------------

  /** Aligning the listener in question completes one round. */
  lemma RoundDone(ls: seq<Listener>, l: Listener, rest: seq<Listener>, ranges: set<string>, ls': seq<Listener>)
    requires forall k :: 0 <= k < |ls| ==> ls[k].id == k
    requires Remaining(ls, [l] + rest, ranges)
    requires || (ls' == ls && (ranges == {} || Elems(l.cidrs) == ranges))
             || (l.id < |ls| == |ls'| && Elems(ls'[l.id].cidrs) == ranges && ls' == ls[l.id := ls'[l.id]])
    ensures Remaining(ls', rest, ranges)
  {
    var i := |ls| - |rest| - 1;
    assert ls[i..][0] == l && ls[i] == l;
    assert ls[i + 1..] == ls[i..][1..] == rest;
    assert ls'[i + 1..] == ls[i + 1..];
  }

  lemma AdjustGood(a: State, e: Event, b: State, job: Job, pc: Pc)
    requires Coherent(a) && pc.Adjust? && Good(a, job, pc) && ListGood(a, job, pc)
    requires Permits(job, pc, e) && Effect(a, e, b)
    ensures ListGood(b, job, Next(job, pc, e))
  {
    if Next(job, pc, e).Await? {
      RoundDone(a.lbs[pc.lb.id].listeners, pc.l, pc.rest, job.ranges, b.lbs[pc.lb.id].listeners);
    }
  }

  lemma RemainingNone(c: State, job: Job, id: nat)
    requires OneLive(c) && LiveNamed(c, id, LbName(job.ns)) && Remaining(c.lbs[id].listeners, [], job.ranges)
    ensures AllAligned(c, LbName(job.ns), job.ranges)
  {
    assert Managed(LbName(job.ns));
  }

  /** Entering the loop, finding a listener again, polling, and leaving the loop. */
  lemma LoopGood(c: State, e: Event, job: Job, pc: Pc)
    requires Coherent(c) && OneLive(c) && (pc.Listeners? || pc.Resolve? || pc.Await?)
    requires Good(c, job, pc) && ListGood(c, job, pc) && Permits(job, pc, e) && Effect(c, e, c)
    ensures ListGood(c, job, Next(job, pc, e))
  {
    if pc.Listeners? {
      if e.listeners.Answer? && e.listeners.value == [] {
        RemainingNone(c, job, pc.lb.id);
      }
    } else if pc.Resolve? {
      var ls := c.lbs[pc.lb.id].listeners;
      assert ls[|ls| - |pc.rest|] == pc.rest[0];
      if PickListener(e.pages).Ok? {
        PickedIsTheOne(e.pages, ls, pc.rest[0]);
        assert [pc.rest[0]] + pc.rest[1..] == pc.rest;
      }
    } else {
      if pc.after == Some([]) {
        RemainingNone(c, job, pc.id);
      }
    }
  }

  lemma OwnStepListGood(a: State, e: Event, b: State, job: Job, pc: Pc)
    requires Coherent(a) && OneLive(a) && Good(a, job, pc) && ListGood(a, job, pc)
    requires Permits(job, pc, e) && Effect(a, e, b)
    ensures ListGood(b, job, Next(job, pc, e))
  {
    if pc.Adjust? {
      AdjustGood(a, e, b, job, pc);
    } else if pc.Listeners? || pc.Resolve? || pc.Await? {
      LoopGood(a, e, job, pc);
    } else if Tending(pc) {
      TendingSpares(a, e, b, job, pc);
      AfterLoop(a, e, b, job, pc);
    } else {
      BeforeLoop(a, job, pc, e);
    }
  }

  lemma AfterLoop(a: State, e: Event, b: State, job: Job, pc: Pc)
    requires Tending(pc) && !pc.Adjust? && !pc.Listeners? && !pc.Resolve? && !pc.Await?
    requires Good(a, job, pc) && ListGood(a, job, pc) && Spares(a, b, LbName(job.ns))
    requires Permits(job, pc, e) && Effect(a, e, b)
    ensures ListGood(b, job, Next(job, pc, e))
  {
    assert SparesListeners(a, b, LbName(job.ns));
    SparedListGood(a, b, job, pc);
    StaysAfterLoop(job, pc, e);
  }

  lemma StaysAfterLoop(job: Job, pc: Pc, e: Event)
    requires Tending(pc) && !pc.Adjust? && !pc.Listeners? && !pc.Resolve? && !pc.Await? && Permits(job, pc, e)
    ensures var pc' := Next(job, pc, e);
            Tending(pc') && !pc'.Adjust? && !pc'.Listeners? && !pc'.Resolve? && !pc'.Await?
  {
  }

  lemma BeforeLoop(a: State, job: Job, pc: Pc, e: Event)
    requires !Tending(pc) && !pc.Await? && Good(a, job, pc) && Permits(job, pc, e)
    ensures forall b :: ListGood(b, job, Next(job, pc, e))
  {
  }

  // ---- runs --------------------------------------------------------------------------------

  lemma StepKeepsListInv(w: World, l: Label, w': World)
    requires Inv(w) && ListInv(w) && Step(w, l, w')
    ensures ListInv(w')
  {
    match l {
      case Act(ns, e) =>
        var Worker(job, pc) := w.workers[ns];
        OwnStepListGood(w.cloud, e, w'.cloud, job, pc);
        EventIsLocal(w.cloud, e, w'.cloud, job, pc);
        forall other | other in w.workers && other != ns
          ensures ListGood(w'.cloud, w.workers[other].job, w.workers[other].pc)
        {
          LbNameInjective(ns, other);
          LocalSparesOthers(w.cloud, w'.cloud, LbName(ns), LbName(other));
          SparedListGood(w.cloud, w'.cloud, w.workers[other].job, w.workers[other].pc);
        }
      case Environment =>
        forall ns | ns in w.workers
          ensures ListGood(w'.cloud, w.workers[ns].job, w.workers[ns].pc)
        {
          EnvironmentSpares(w.cloud, w'.cloud, LbName(ns));
          EnvironmentSparesListeners(w.cloud, w'.cloud, LbName(ns));
          SparedListGood(w.cloud, w'.cloud, w.workers[ns].job, w.workers[ns].pc);
        }
      case Start(_, _) =>
      case Stop(_) =>
    }
  }

  lemma {:induction false} RunKeepsListInv(r: Run, k: nat)
    requires ValidRun(r) && k < |r.worlds|
    ensures Inv(r.worlds[k]) && ListInv(r.worlds[k])
  {
    RunKeepsInv(r, k);
    if k > 0 {
      RunKeepsListInv(r, k - 1);
      assert StepAt(r, k - 1);
      StepKeepsListInv(r.worlds[k - 1], r.labels[k - 1], r.worlds[k]);
    }
  }

  /**
    In every interleaving, when a Reconcile has succeeded, every listener of the live load balancer
    admits exactly the addresses that the configuration of the run asks for.
   */
  lemma AllowListInEveryRun(r: Run, k: nat, ns: string, i: nat, listener: nat, allowed: Option<seq<string>>,
                            workers: string, a: nat)
    requires ValidRun(r) && k < |r.worlds| && ns in r.worlds[k].workers
    requires r.worlds[k].workers[ns].job.op.Reconcile? && r.worlds[k].workers[ns].pc == Done(true)
    requires LiveNamed(r.worlds[k].cloud, i, LbName(ns)) && listener < |r.worlds[k].cloud.lbs[i].listeners|
    requires r.worlds[k].workers[ns].job.ranges != {}
    requires forall x: nat :: ListAdmits(r.worlds[k].workers[ns].job.ranges, x) <==> Wanted(allowed, workers, x)
    ensures ListAdmits(Elems(r.worlds[k].cloud.lbs[i].listeners[listener].cidrs), a) <==> Wanted(allowed, workers, a)
  {
    RunKeepsListInv(r, k);
    var job := r.worlds[k].workers[ns].job;
    assert ListGood(r.worlds[k].cloud, job, Done(true));
    assert AlignedUpTo(r.worlds[k].cloud.lbs[i].listeners, |r.worlds[k].cloud.lbs[i].listeners|, job.ranges);
  }
}
