// All workers together: one run per namespace at a time, any number of namespaces, and a cloud that
// moves on by itself in between. Which load balancers can exist in any such run.
module Interleaving {
  import opened Text
  import opened CloudModel
  import opened Program

  datatype Worker = Worker(job: Job, pc: Pc)

  datatype World = World(cloud: State, workers: map<string, Worker>)

  /** What happens in one step. Stop ends a run, or cuts it short when the controller crashes. */
  datatype Label = Start(ns: string, job: Job) | Act(ns: string, event: Event) | Stop(ns: string) | Environment

  // ---- the environment --------------------------------------------------------------------

  predicate Managed(name: string) {
    LbName("") <= name
  }

  /** One of the controller's load balancers, and not deleted or being deleted. */
  predicate Ours(lb: Lb) {
    Managed(lb.name) && Live(lb.status)
  }

  predicate PortOfOurs(lbs: seq<Lb>, port: string) {
    exists i :: 0 <= i < |lbs| && Ours(lbs[i]) && lbs[i].port == port
  }

  /** Somebody else creates a load balancer, under a name of their own. */
  predicate ForeignLb(a: State, b: State) {
    && |b.lbs| == |a.lbs| + 1 && b == a.(lbs := a.lbs + [b.lbs[|a.lbs|]])
    && var lb := b.lbs[|a.lbs|];
       && !Managed(lb.name) && lb.port != ""
       && (forall i :: 0 <= i < |a.lbs| ==> a.lbs[i].port != lb.port)
       && (forall i :: 0 <= i < |a.fips| ==> a.fips[i].port != lb.port)
  }

  /** Somebody else edits or deletes load balancers of their own. */
  predicate ForeignEdit(a: State, b: State) {
    && b == a.(lbs := b.lbs) && |b.lbs| == |a.lbs|
    && forall i :: 0 <= i < |a.lbs| ==>
         && b.lbs[i].name == a.lbs[i].name && b.lbs[i].port == a.lbs[i].port
         && (Managed(a.lbs[i].name) ==> b.lbs[i] == a.lbs[i])
  }

  /**
    Others make, bind, rebind and release floating IPs, and forward their ports, anywhere but on the
    ports of the controller's live load balancers.
   */
  predicate FipsShift(a: State, b: State) {
    && b == a.(fips := b.fips) && |b.fips| >= |a.fips|
    && (forall i :: 0 <= i < |a.fips| ==>
          && b.fips[i] == a.fips[i].(down := b.fips[i].down, port := b.fips[i].port, forwards := b.fips[i].forwards)
          && (b.fips[i].port == a.fips[i].port
              || (!PortOfOurs(a.lbs, a.fips[i].port) && !PortOfOurs(a.lbs, b.fips[i].port))))
    && (forall i :: |a.fips| <= i < |b.fips| ==> !PortOfOurs(a.lbs, b.fips[i].port))
  }

  predicate EnvironmentStep(a: State, b: State) {
    Coherent(b) && (Drift(a, b) || ForeignLb(a, b) || ForeignEdit(a, b) || FipsShift(a, b))
  }

  // ---- runs -------------------------------------------------------------------------------

  ghost predicate Step(w: World, l: Label, w': World) {
    match l
    case Start(ns, job) =>
      ns !in w.workers && job.ns == ns && w' == w.(workers := w.workers[ns := Worker(job, Find)])
    case Act(ns, e) =>
      && ns in w.workers
      && var Worker(job, pc) := w.workers[ns];
         && Permits(job, pc, e) && Effect(w.cloud, e, w'.cloud)
         && w'.workers == w.workers[ns := Worker(job, Next(job, pc, e))]
    case Stop(ns) => w' == w.(workers := w.workers - {ns})
    case Environment => EnvironmentStep(w.cloud, w'.cloud) && w'.workers == w.workers
  }

  datatype Run = Run(worlds: seq<World>, labels: seq<Label>)

  /** A run starts with idle workers and with at most one live load balancer per managed name. */
  ghost predicate Init(w: World) {
    Coherent(w.cloud) && OneLive(w.cloud) && w.workers == map[]
  }

  ghost predicate StepAt(r: Run, k: nat)
    requires k < |r.labels| && k + 1 < |r.worlds|
  {
    Step(r.worlds[k], r.labels[k], r.worlds[k + 1])
  }

  ghost predicate Chained(r: Run) {
    && |r.worlds| == |r.labels| + 1
    && forall k: nat :: k < |r.labels| ==> StepAt(r, k)
  }

  ghost predicate ValidRun(r: Run) {
    Chained(r) && Init(r.worlds[0])
  }

  // ---- the invariant ----------------------------------------------------------------------

  ghost predicate LiveNamed(c: State, i: int, name: string) {
    0 <= i < |c.lbs| && Live(c.lbs[i].status) && c.lbs[i].name == name
  }

  ghost predicate NoneLive(c: State, name: string) {
    forall i :: !LiveNamed(c, i, name)
  }

  ghost predicate OnlyLive(c: State, name: string, id: nat) {
    forall i :: LiveNamed(c, i, name) ==> i == id
  }

  /** At most one live load balancer for every managed name. */
  ghost predicate OneLive(c: State) {
    forall name, i, j :: Managed(name) && LiveNamed(c, i, name) && LiveNamed(c, j, name) ==> i == j
  }

  /** What a worker remembers of its load balancer still holds. */
  ghost predicate Sees(c: State, name: string, lb: Lb) {
    && LiveNamed(c, lb.id, name)
    && c.lbs[lb.id].vip == lb.vip && c.lbs[lb.id].port == lb.port && c.lbs[lb.id].created == lb.created
  }

  /** What the cloud looks like to a worker at this point of its program. */
  ghost predicate Good(c: State, job: Job, pc: Pc) {
    var name := LbName(job.ns);
    match pc
    case Find => true
    case SubnetOf | FlavorOf | Create => job.op.Reconcile? && NoneLive(c, name)
    case Await(id, _, _) => job.op.Reconcile? && LiveNamed(c, id, name)
    case Drop(id) => id < |c.lbs| && c.lbs[id].name == name && OnlyLive(c, name, id)
    case AwaitGone(id, _) => id < |c.lbs| && c.lbs[id].name == name && NoneLive(c, name)
    case Done(ok) => ok && job.op.Delete? ==> NoneLive(c, name)
    case _ => job.op.Reconcile? && Sees(c, name, pc.lb)
  }

  ghost predicate Inv(w: World) {
    && Coherent(w.cloud) && OneLive(w.cloud)
    && forall ns :: ns in w.workers ==> w.workers[ns].job.ns == ns && Good(w.cloud, w.workers[ns].job, w.workers[ns].pc)
  }

  // ---- one step of one worker -------------------------------------------------------------

  /** Only load balancers of this name are touched, and new ones bear it. */
  ghost predicate Local(a: State, b: State, name: string) {
    && |a.lbs| <= |b.lbs|
    && (forall i :: 0 <= i < |a.lbs| ==>
          b.lbs[i].name == a.lbs[i].name && (a.lbs[i].name != name ==> b.lbs[i] == a.lbs[i]))
    && (forall i :: |a.lbs| <= i < |b.lbs| ==> b.lbs[i].name == name)
  }

  /** Load balancers of this name keep everything that workers rely on, and none is added. */
  ghost predicate Spares(a: State, b: State, name: string) {
    && |a.lbs| <= |b.lbs|
    && (forall i :: 0 <= i < |a.lbs| && a.lbs[i].name == name ==>
          && b.lbs[i].name == name && Live(b.lbs[i].status) == Live(a.lbs[i].status)
          && b.lbs[i].vip == a.lbs[i].vip && b.lbs[i].port == a.lbs[i].port && b.lbs[i].created == a.lbs[i].created)
    && (forall i :: 0 <= i < |b.lbs| && b.lbs[i].name == name ==> i < |a.lbs| && a.lbs[i].name == name)
  }

  lemma LocalSparesOthers(a: State, b: State, name: string, other: string)
    requires Local(a, b, name) && name != other
    ensures Spares(a, b, other)
  {
  }

  lemma EnvironmentSpares(a: State, b: State, name: string)
    requires EnvironmentStep(a, b) && Managed(name)
    ensures Spares(a, b, name)
  {
    if Drift(a, b) {
      assert forall i :: 0 <= i < |a.lbs| ==> Keeps(a.lbs[i], b.lbs[i]);
    }
  }

  lemma SparedLive(a: State, b: State, name: string)
    requires Spares(a, b, name)
    ensures forall i :: LiveNamed(b, i, name) <==> LiveNamed(a, i, name)
  {
  }

  lemma SparedGood(a: State, b: State, job: Job, pc: Pc)
    requires Spares(a, b, LbName(job.ns)) && Good(a, job, pc)
    ensures Good(b, job, pc)
  {
    SparedLive(a, b, LbName(job.ns));
  }

  lemma EventIsLocal(a: State, e: Event, b: State, job: Job, pc: Pc)
    requires Good(a, job, pc) && Permits(job, pc, e) && Effect(a, e, b)
    ensures Local(a, b, LbName(job.ns))
  {
  }

  /** An answered listing is complete, so what PickLive says is what is there. */
  lemma PickLiveIsTrue(c: State, name: string, answer: Reply<seq<Lb>>)
    requires Coherent(c) && (answer.Answer? ==> AnswersLbs(answer.value, c.lbs, name))
    ensures PickLive(answer) == Err(Missing) ==> NoneLive(c, name)
    ensures PickLive(answer).Ok? ==>
              Sees(c, name, PickLive(answer).value) && OnlyLive(c, name, PickLive(answer).value.id)
    ensures PickLive(answer).Ok? ==> c.lbs[PickLive(answer).value.id] == PickLive(answer).value
    ensures PickLive(answer) == Err(Multiple) ==>
              exists i, j :: i != j && LiveNamed(c, i, name) && LiveNamed(c, j, name)
  {
    if answer.Answer? {
      var live := LiveOnes(answer.value);
      forall i | LiveNamed(c, i, name)
        ensures c.lbs[i] in live
      {
      }
      if |live| > 1 {
        LiveOnesDistinct(answer.value);
        assert live[0] in live && live[1] in live;
        assert live[0].id != live[1].id && LiveNamed(c, live[0].id, name) && LiveNamed(c, live[1].id, name);
      } else if |live| == 1 {
        assert live[0] in answer.value;
        forall i | LiveNamed(c, i, name)
          ensures i == live[0].id
        {
          assert c.lbs[i] in answer.value;
          var k :| 0 <= k < |answer.value| && answer.value[k] == c.lbs[i];
          var m :| 0 <= m < |answer.value| && answer.value[m] == live[0];
          assert c.lbs[i] == live[0];
        }
      }
    }
  }

  /** The one live load balancer of this name is this. */
  ghost predicate TheLive(c: State, name: string, i: int) {
    LiveNamed(c, i, name) && OnlyLive(c, name, i)
  }

  /** What the health check says is true of the cloud, and it says something whenever there is something to say. */
  lemma HealthIsTrue(c: State, name: string, answer: Reply<seq<Lb>>)
    requires Coherent(c) && (answer.Answer? ==> AnswersLbs(answer.value, c.lbs, name))
    ensures Check(PickLive(answer)) == Health.True <==>
              answer.Answer? && exists i :: TheLive(c, name, i) && c.lbs[i].status == Active && c.lbs[i].oper == Online
    ensures Check(PickLive(answer)) == Health.False <==>
              answer.Answer? &&
              (NoneLive(c, name) ||
               exists i :: TheLive(c, name, i) &&
                 (c.lbs[i].status == Error ||
                  (c.lbs[i].status == Active && (c.lbs[i].oper == OperError || c.lbs[i].oper == Offline))))
    ensures Check(PickLive(answer)) == Unknown <==>
              !answer.Answer? || exists i, j :: i != j && LiveNamed(c, i, name) && LiveNamed(c, j, name)
  {
    PickLiveIsTrue(c, name, answer);
    var found := PickLive(answer);
    if found.Ok? {
      assert TheLive(c, name, found.value.id);
      assert forall i :: LiveNamed(c, i, name) ==> i == found.value.id;
    }
  }

  predicate DistinctIds(lbs: seq<Lb>) {
    forall j, k :: 0 <= j < k < |lbs| ==> lbs[j].id != lbs[k].id
  }

  lemma {:induction false} LiveOnesDistinct(lbs: seq<Lb>)
    requires DistinctIds(lbs)
    ensures DistinctIds(LiveOnes(lbs))
  {
    if lbs != [] {
      LiveOnesDistinct(lbs[1..]);
      var rest := LiveOnes(lbs[1..]);
      forall k | 0 <= k < |rest|
        ensures rest[k].id != lbs[0].id
      {
        assert rest[k] in lbs[1..];
        var m :| 1 <= m < |lbs| && lbs[m] == rest[k];
      }
    }
  }

  /** Apart from creating and deleting, a worker spares even its own load balancer. */
  lemma TendingSpares(a: State, e: Event, b: State, job: Job, pc: Pc)
    requires !pc.Create? && !pc.Drop? && Permits(job, pc, e) && Effect(a, e, b)
    ensures Spares(a, b, LbName(job.ns))
  {
  }

  lemma TendingAdvances(c: State, e: Event, job: Job, pc: Pc)
    requires Tending(pc) && !pc.Await? && Good(c, job, pc) && Permits(job, pc, e)
    ensures Good(c, job, Next(job, pc, e))
  {
  }

  lemma FindGood(c: State, e: Event, job: Job)
    requires Coherent(c) && Permits(job, Find, e) && Effect(c, e, c)
    ensures Good(c, job, Next(job, Find, e))
  {
    PickLiveIsTrue(c, LbName(job.ns), e.lbs);
  }

  lemma CreationGood(a: State, e: Event, b: State, job: Job, pc: Pc)
    requires pc.SubnetOf? || pc.FlavorOf? || pc.Create?
    requires Good(a, job, pc) && Permits(job, pc, e) && Effect(a, e, b)
    ensures Good(b, job, Next(job, pc, e))
  {
    if pc.Create? && e.made.Answer? {
      assert LiveNamed(b, e.made.value.id, LbName(job.ns));
    }
  }

  lemma PollGood(c: State, e: Event, job: Job, pc: Pc)
    requires Coherent(c) && (pc.Await? || pc.AwaitGone?)
    requires Good(c, job, pc) && Permits(job, pc, e) && Effect(c, e, c)
    ensures Good(c, job, Next(job, pc, e))
  {
  }

  lemma OwnStepGood(a: State, e: Event, b: State, job: Job, pc: Pc)
    requires Coherent(a) && Good(a, job, pc) && Permits(job, pc, e) && Effect(a, e, b)
    ensures Good(b, job, Next(job, pc, e))
  {
    if pc == Find {
      FindGood(a, e, job);
    } else if pc.SubnetOf? || pc.FlavorOf? || pc.Create? {
      CreationGood(a, e, b, job, pc);
    } else if pc.Await? || pc.AwaitGone? {
      PollGood(a, e, job, pc);
    } else if pc.Drop? {
      DropGood(a, e, b, job, pc);
    } else {
      TendingSpares(a, e, b, job, pc);
      SparedGood(a, b, job, pc);
      TendingAdvances(b, e, job, pc);
    }
  }

  lemma DropGood(a: State, e: Event, b: State, job: Job, pc: Pc)
    requires pc.Drop? && Good(a, job, pc) && Permits(job, pc, e) && Effect(a, e, b)
    ensures Good(b, job, Next(job, pc, e))
  {
    if !e.gone.Failed? {
      forall i | LiveNamed(b, i, LbName(job.ns))
        ensures LiveNamed(a, i, LbName(job.ns))
      {
      }
    }
  }

  lemma CreationOneLive(a: State, e: Event, b: State, job: Job)
    requires OneLive(a) && Good(a, job, Create) && Permits(job, Create, e) && Effect(a, e, b)
    ensures OneLive(b)
  {
    forall name, i, j | Managed(name) && LiveNamed(b, i, name) && LiveNamed(b, j, name)
      ensures i == j
    {
      if name == LbName(job.ns) {
        assert !LiveNamed(a, i, name) && !LiveNamed(a, j, name);
      } else {
        assert LiveNamed(a, i, name) && LiveNamed(a, j, name);
      }
    }
  }

  /** Apart from creating, no call brings anything to life. */
  lemma NothingRevives(a: State, e: Event, b: State, job: Job, pc: Pc)
    requires !pc.Create? && Permits(job, pc, e) && Effect(a, e, b)
    ensures forall name, i :: LiveNamed(b, i, name) ==> LiveNamed(a, i, name)
  {
  }

  lemma OwnStepOneLive(a: State, e: Event, b: State, job: Job, pc: Pc)
    requires OneLive(a) && Good(a, job, pc) && Permits(job, pc, e) && Effect(a, e, b)
    ensures OneLive(b)
  {
    if pc == Create {
      CreationOneLive(a, e, b, job);
    } else {
      NothingRevives(a, e, b, job, pc);
    }
  }

  // ---- runs keep the invariant ------------------------------------------------------------

  lemma StepKeepsInv(w: World, l: Label, w': World)
    requires Inv(w) && Step(w, l, w')
    ensures Inv(w')
  {
    match l {
      case Act(ns, e) =>
        var Worker(job, pc) := w.workers[ns];
        EffectCoherent(w.cloud, e, w'.cloud);
        OwnStepGood(w.cloud, e, w'.cloud, job, pc);
        OwnStepOneLive(w.cloud, e, w'.cloud, job, pc);
        EventIsLocal(w.cloud, e, w'.cloud, job, pc);
        forall other | other in w.workers && other != ns
          ensures Good(w'.cloud, w.workers[other].job, w.workers[other].pc)
        {
          LbNameInjective(ns, other);
          LocalSparesOthers(w.cloud, w'.cloud, LbName(ns), LbName(other));
          SparedGood(w.cloud, w'.cloud, w.workers[other].job, w.workers[other].pc);
        }
      case Environment =>
        forall name | Managed(name)
          ensures forall i :: LiveNamed(w'.cloud, i, name) <==> LiveNamed(w.cloud, i, name)
        {
          EnvironmentSpares(w.cloud, w'.cloud, name);
          SparedLive(w.cloud, w'.cloud, name);
        }
        forall ns | ns in w.workers
          ensures Good(w'.cloud, w.workers[ns].job, w.workers[ns].pc)
        {
          EnvironmentSpares(w.cloud, w'.cloud, LbName(ns));
          SparedGood(w.cloud, w'.cloud, w.workers[ns].job, w.workers[ns].pc);
        }
      case Start(_, _) =>
      case Stop(_) =>
    }
  }

  lemma {:induction false} RunKeepsInv(r: Run, k: nat)
    requires ValidRun(r) && k < |r.worlds|
    ensures Inv(r.worlds[k])
  {
    if k > 0 {
      RunKeepsInv(r, k - 1);
      assert StepAt(r, k - 1);
      StepKeepsInv(r.worlds[k - 1], r.labels[k - 1], r.worlds[k]);
    }
  }

  // ---- what follows for every run ---------------------------------------------------------

  /** In every state of every run there is at most one live load balancer per namespace. */
  lemma UniqueInEveryRun(r: Run, k: nat, ns: string, i: nat, j: nat)
    requires ValidRun(r) && k < |r.worlds|
    requires LiveNamed(r.worlds[k].cloud, i, LbName(ns)) && LiveNamed(r.worlds[k].cloud, j, LbName(ns))
    ensures i == j
  {
    RunKeepsInv(r, k);
  }

  /** So no look-up by a worker ever reports several results. */
  lemma NeverMultipleResults(r: Run, k: nat)
    requires ValidRun(r) && k < |r.labels| && r.labels[k].Act? && r.labels[k].event.ListLbs?
    ensures PickLive(r.labels[k].event.lbs) != Err(Multiple)
  {
    RunKeepsInv(r, k);
    assert StepAt(r, k);
    var Act(ns, e) := r.labels[k];
    PickLiveIsTrue(r.worlds[k].cloud, e.name, e.lbs);
  }

  /** When Delete (or Migrate) has returned without error, nothing live of that name is left. */
  lemma DeleteIsEffective(r: Run, k: nat, ns: string)
    requires ValidRun(r) && k < |r.worlds| && ns in r.worlds[k].workers
    requires r.worlds[k].workers[ns].job.op.Delete? && r.worlds[k].workers[ns].pc == Done(true)
    ensures NoneLive(r.worlds[k].cloud, LbName(ns))
  {
    RunKeepsInv(r, k);
  }

  /** No call of one namespace's worker touches a load balancer of another namespace. */
  lemma WorkersAreLocal(r: Run, k: nat, i: nat)
    requires ValidRun(r) && k < |r.labels| && r.labels[k].Act?
    requires i < |r.worlds[k].cloud.lbs| && r.worlds[k].cloud.lbs[i].name != LbName(r.labels[k].ns)
    ensures i < |r.worlds[k + 1].cloud.lbs| && r.worlds[k + 1].cloud.lbs[i] == r.worlds[k].cloud.lbs[i]
  {
    RunKeepsInv(r, k);
    assert StepAt(r, k);
    var Act(ns, e) := r.labels[k];
    var Worker(job, pc) := r.worlds[k].workers[ns];
    EventIsLocal(r.worlds[k].cloud, e, r.worlds[k + 1].cloud, job, pc);
  }
}
