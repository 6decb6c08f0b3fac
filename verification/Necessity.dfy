// What the theorems about runs cannot do without: concrete runs that go wrong once an assumption is dropped.
module Necessity {
  import opened Text
  import opened CloudModel
  import opened Program
  import opened Interleaving
  import opened FloatingRuns

  function JobOf(ns: string): Job {
    Job(Op.Reconcile, ns, false, {}, [])
  }

  // ---- a deletion that fails after all -----------------------------------------------------

  const OLD_LB := Lb(0, LbName("a"), PendingDelete, Offline, "10.0.0.1", "p0", 0, [])
  const NEW_LB := Lb(1, LbName("a"), PendingCreate, Online, "10.0.0.2", "p1", 0,
                     [NewListener(0, 443), NewListener(1, 8443), NewListener(2, 8132)])
  const SPECS := [NewSpec(443), NewSpec(8443), NewSpec(8132)]

  function NewSpec(port: nat): ListenerSpec {
    ListenerSpec(LbName("a") + "-" + Decimal(port), port, [], [])
  }

  function NewListener(id: nat, port: nat): Listener {
    Listener(id, NewSpec(port).name, [])
  }

  const RECREATION: seq<Event> := [
    ListLbs(LbName("a"), Answer([OLD_LB])),
    Lookup(WorkerSubnet, Answer("subnet")),
    Lookup(FlavorId, Answer("basic")),
    CreateLb(LbName("a"), SPECS, Answer(NEW_LB))
  ]

  function RecreationCloud(k: nat): State {
    State(if k <= 4 then [OLD_LB] else [OLD_LB, NEW_LB], [], map[])
  }

  function RecreationPc(k: nat): Pc {
    match k
    case 1 => Find
    case 2 => SubnetOf
    case 3 => FlavorOf
    case 4 => Create
    case _ => Await(1, None, 0)
  }

  function RecreationWorld(k: nat): World {
    World(RecreationCloud(k), if k == 0 then map[] else map["a" := Worker(JobOf("a"), RecreationPc(k))])
  }

  function RecreationLabel(k: nat): Label
    requires k < 5
  {
    if k == 0 then Start("a", JobOf("a")) else Act("a", RECREATION[k - 1])
  }

  lemma RecreationStep(k: nat)
    requires k < 5
    ensures Step(RecreationWorld(k), RecreationLabel(k), RecreationWorld(k + 1))
  {
    assert LiveOnes([OLD_LB]) == [];
    assert [OLD_LB] + [NEW_LB] == [OLD_LB, NEW_LB];
    assert "p0" != "p1";
  }

  /**
    A valid run reaches a world in which one load balancer of a namespace is being deleted and another
    one is live; if the deletion then failed and left ERROR behind, two would be live. So uniqueness
    needs PENDING_DELETE to end in DELETED.
   */
  lemma RevivalBreaksUniqueness() returns (r: Run, revived: State)
    ensures ValidRun(r)
    ensures var last := r.worlds[|r.worlds| - 1].cloud;
            0 < |last.lbs| && last.lbs[0].status == PendingDelete && revived == WithStatus(last, 0, Error)
    ensures !OneLive(revived)
  {
    r := Run(seq(6, k requires 0 <= k < 6 => RecreationWorld(k)), seq(5, k requires 0 <= k < 5 => RecreationLabel(k)));
    forall k: nat | k < 5
      ensures StepAt(r, k)
    {
      RecreationStep(k);
    }
    assert OneLive(RecreationCloud(0));
    var last := RecreationCloud(5);
    assert r.worlds[5] == RecreationWorld(5);
    revived := WithStatus(last, 0, Error);
    assert LiveNamed(revived, 0, LbName("a")) && LiveNamed(revived, 1, LbName("a"));
    assert Managed(LbName("a"));
  }

  // ---- two workers inside AttachFloatingIP -------------------------------------------------

  const LB_A := Lb(0, LbName("a"), Active, Online, "10.0.0.1", "pa", 0, [])
  const LB_B := Lb(1, LbName("b"), Active, Online, "10.0.0.2", "pb", 0, [])
  const LB_C := Lb(2, "theirs", Active, Online, "10.0.0.3", "pc", 0, [])
  const FREE := Fip(0, "203.0.113.9", "", 0, true, "pool", "project")

  function Before(port: string): State {
    State([LB_A, LB_B, LB_C], [FREE.(port := port)], map[])
  }

  /** How a worker with an untouched load balancer comes to hold the free address as a candidate. */
  function Approach(lb: Lb, k: nat): Pc {
    match k
    case 0 => Find
    case 1 => Listeners(lb)
    case 2 => FindFip(lb)
    case 3 => Project(lb)
    case 4 => Pool(lb, "project")
    case 5 => Free(lb, "project", "pool")
    case 6 => Forwards(lb, "project", "pool", [FREE], None)
    case _ => Bind(lb, "project", "pool", [FREE], None)
  }

  function ApproachEvent(lb: Lb, k: nat): Event {
    match k
    case 0 => ListLbs(lb.name, Answer([lb]))
    case 1 => ListListeners(lb.id, Answer([]))
    case 2 => ListFips(OnPort(lb.port), Answer([]))
    case 3 => Lookup(NetworkProject, Answer("project"))
    case 4 => Lookup(PoolId, Answer("pool"))
    case 5 => ListFips(DownIn("pool", "project"), Answer([FREE]))
    case _ => ListForwardings(0, Answer(0))
  }

  lemma ApproachCall(ns: string, lb: Lb, k: nat)
    requires lb.name == LbName(ns) && Live(lb.status) && lb.status.Active? && k < 7
    ensures Permits(JobOf(ns), Approach(lb, k), ApproachEvent(lb, k))
    ensures Next(JobOf(ns), Approach(lb, k), ApproachEvent(lb, k)) == Approach(lb, k + 1)
  {
    if k == 0 {
      assert LiveOnes([lb]) == [lb] by { assert [lb][1..] == []; }
    }
  }

  lemma ApproachAnswer(lb: Lb, k: nat)
    requires (lb == LB_A || lb == LB_B) && k < 7
    ensures Effect(Before(""), ApproachEvent(lb, k), Before(""))
  {
    if k == 0 {
      LbNameInjective("a", "b");
      assert lb in [lb];
    } else if k == 2 {
      assert lb.port != "";
    } else if k == 5 {
      assert FREE in [FREE];
    }
  }

  /** Two workers, each idle or at some point of its program. */
  function Duo(c: State, a: Option<Pc>, b: Option<Pc>): World {
    World(c, (if a.Some? then map["a" := Worker(JobOf("a"), a.value)] else map[])
             + (if b.Some? then map["b" := Worker(JobOf("b"), b.value)] else map[]))
  }

  lemma ActA(c: State, pc: Pc, b: Option<Pc>, e: Event, c': State)
    requires Permits(JobOf("a"), pc, e) && Effect(c, e, c')
    ensures Step(Duo(c, Some(pc), b), Act("a", e), Duo(c', Some(Next(JobOf("a"), pc, e)), b))
  {
    assert "a" != "b";
  }

  lemma ActB(c: State, a: Option<Pc>, pc: Pc, e: Event, c': State)
    requires Permits(JobOf("b"), pc, e) && Effect(c, e, c')
    ensures Step(Duo(c, a, Some(pc)), Act("b", e), Duo(c', a, Some(Next(JobOf("b"), pc, e))))
  {
    assert "a" != "b";
  }

  const PATCH_A := Patch(LB_A, FREE.addr)
  const PATCH_B := Patch(LB_B, FREE.addr)
  const RECORD_A := RecordFor(JobOf("a"), LB_A, FREE.addr)

  /** First both workers approach, then a binds, then b binds, then a stores its record. */
  function RaceWorld(n: nat): World {
    if n == 0 then Duo(Before(""), None, None)
    else if n <= 8 then Duo(Before(""), Some(Approach(LB_A, n - 1)), None)
    else if n <= 16 then Duo(Before(""), Some(Approach(LB_A, 7)), Some(Approach(LB_B, n - 9)))
    else if n == 17 then Duo(Before("pa"), Some(PATCH_A), Some(Approach(LB_B, 7)))
    else if n == 18 then Duo(Before("pb"), Some(PATCH_A), Some(PATCH_B))
    else Duo(Before("pb").(records := map["a" := RECORD_A]), Some(Done(true)), Some(PATCH_B))
  }

  function RaceLabel(n: nat): Label
    requires n < 19
  {
    if n == 0 then Start("a", JobOf("a"))
    else if n <= 7 then Act("a", ApproachEvent(LB_A, n - 1))
    else if n == 8 then Start("b", JobOf("b"))
    else if n <= 15 then Act("b", ApproachEvent(LB_B, n - 9))
    else if n == 16 then Act("a", UpdateFip(0, Some("pa"), Answer(FREE.(port := "pa"))))
    else if n == 17 then Act("b", UpdateFip(0, Some("pb"), Answer(FREE.(port := "pb"))))
    else Act("a", PatchStatus("a", RECORD_A, Answer(())))
  }

  lemma RaceOfA(n: nat)
    requires 1 <= n <= 7
    ensures Step(RaceWorld(n), RaceLabel(n), RaceWorld(n + 1))
  {
    ApproachCall("a", LB_A, n - 1);
    ApproachAnswer(LB_A, n - 1);
    ActA(Before(""), Approach(LB_A, n - 1), None, ApproachEvent(LB_A, n - 1), Before(""));
  }

  lemma RaceOfB(n: nat)
    requires 9 <= n <= 15
    ensures Step(RaceWorld(n), RaceLabel(n), RaceWorld(n + 1))
  {
    ApproachCall("b", LB_B, n - 9);
    ApproachAnswer(LB_B, n - 9);
    ActB(Before(""), Some(Approach(LB_A, 7)), Approach(LB_B, n - 9), ApproachEvent(LB_B, n - 9), Before(""));
  }

  lemma RaceStarts(n: nat)
    requires n == 0 || n == 8
    ensures Step(RaceWorld(n), RaceLabel(n), RaceWorld(n + 1))
  {
    assert "a" != "b";
  }

  lemma Rebinding(from: string, to: string)
    requires to != ""
    ensures Effect(Before(from), UpdateFip(0, Some(to), Answer(FREE.(port := to))), Before(to))
  {
    var b := Before(to);
    assert b.fips == Before(from).fips[0 := Before(from).fips[0].(port := to)];
  }

  lemma RaceEnds(n: nat)
    requires 16 <= n < 19
    ensures Step(RaceWorld(n), RaceLabel(n), RaceWorld(n + 1))
  {
    assert [FREE][1..] == [];
    if n == 16 {
      Rebinding("", "pa");
      ActA(Before(""), Approach(LB_A, 7), Some(Approach(LB_B, 7)), RaceLabel(16).event, Before("pa"));
    } else if n == 17 {
      Rebinding("pa", "pb");
      ActB(Before("pa"), Some(PATCH_A), Approach(LB_B, 7), RaceLabel(17).event, Before("pb"));
    } else {
      var c := Before("pb").(records := map["a" := RECORD_A]);
      assert c == Before("pb").(records := Before("pb").records["a" := RECORD_A]);
      ActA(Before("pb"), PATCH_A, Some(PATCH_B), RaceLabel(18).event, c);
    }
  }

  lemma StolenRecord(c: State)
    requires c == Before("pb").(records := map["a" := RECORD_A])
    ensures !RecordSound(c, JobOf("a"))
  {
    LbNameInjective("a", "b");
    assert "pa" != "pb";
    assert forall f :: !On(c, f, "pa");
    forall i, addr
      ensures !RecordDescribes(c, JobOf("a"), i, addr)
    {
      assert LiveNamed(c, i, LbName("a")) ==> i == 0;
    }
  }

  lemma RaceInit()
    ensures Init(RaceWorld(0)) && FipSound(RaceWorld(0).cloud)
  {
    LbNameInjective("a", "b");
    assert "pa" != "pb" && "pa" != "" && "pb" != "";
  }

  /**
    Without exclusion two workers can both find the same address free. The second one takes it over,
    and the first still reports success: its record names an address that sits on the other port.
   */
  lemma RaceBreaksRecords() returns (r: Run, k: nat)
    ensures ValidRun(r) && FipSound(r.worlds[0].cloud) && k < |r.worlds| && "a" in r.worlds[k].workers
    ensures r.worlds[k].workers["a"] == Worker(JobOf("a"), Done(true))
    ensures !RecordSound(r.worlds[k].cloud, JobOf("a"))
  {
    r, k := Run(seq(20, n requires 0 <= n < 20 => RaceWorld(n)), seq(19, n requires 0 <= n < 19 => RaceLabel(n))), 19;
    forall n: nat | n < 19
      ensures StepAt(r, n)
    {
      if n == 0 || n == 8 {
        RaceStarts(n);
      } else if n <= 7 {
        RaceOfA(n);
      } else if n <= 15 {
        RaceOfB(n);
      } else {
        RaceEnds(n);
      }
    }
    RaceInit();
    assert r.worlds[0] == RaceWorld(0) && r.worlds[19] == RaceWorld(19);
    StolenRecord(r.worlds[19].cloud);
  }

  // ---- an address taken between listing and binding ----------------------------------------

  /**
    One worker approaches, somebody else gives the free address to a load balancer of their own, and
    the worker takes it over.
   */
  function TakeoverWorld(n: nat): World {
    if n == 0 then Duo(Before(""), None, None)
    else if n <= 8 then Duo(Before(""), Some(Approach(LB_A, n - 1)), None)
    else if n == 9 then Duo(Before("pc"), Some(Approach(LB_A, 7)), None)
    else Duo(Before("pa"), Some(PATCH_A), None)
  }

  function TakeoverLabel(n: nat): Label
    requires n < 10
  {
    if n <= 7 then RaceLabel(n)
    else if n == 8 then Environment
    else Act("a", UpdateFip(0, Some("pa"), Answer(FREE.(port := "pa"))))
  }

  lemma TakenByOthers()
    ensures Step(TakeoverWorld(8), TakeoverLabel(8), TakeoverWorld(9))
  {
    assert "pc" != "pa" && "pc" != "pb" && "pa" != "" && "pb" != "";
    assert FipsShift(Before(""), Before("pc"));
  }

  lemma TakenOver()
    ensures Step(TakeoverWorld(9), TakeoverLabel(9), TakeoverWorld(10))
  {
    assert [FREE][1..] == [];
    Rebinding("pc", "pa");
    ActA(Before("pc"), Approach(LB_A, 7), None, TakeoverLabel(9).event, Before("pa"));
  }

  lemma TakeoverExclusive(n: nat)
    requires n < 11
    ensures Exclusive(TakeoverWorld(n))
  {
    assert forall ns :: ns in TakeoverWorld(n).workers ==> ns == "a";
  }

  lemma TakeoverStep(n: nat)
    requires n < 10
    ensures Step(TakeoverWorld(n), TakeoverLabel(n), TakeoverWorld(n + 1))
  {
    if n == 0 {
      RaceStarts(0);
    } else if n <= 7 {
      RaceOfA(n);
    } else if n == 8 {
      TakenByOthers();
    } else {
      TakenOver();
    }
  }

  lemma TakeoverRun() returns (r: Run)
    ensures ExclusiveRun(r) && |r.labels| == 10
    ensures r.labels[9] == TakeoverLabel(9) && r.worlds[9] == TakeoverWorld(9) && r.worlds[10] == TakeoverWorld(10)
  {
    r := Run(seq(11, n requires 0 <= n < 11 => TakeoverWorld(n)), seq(10, n requires 0 <= n < 10 => TakeoverLabel(n)));
    forall n: nat | n < 10
      ensures StepAt(r, n)
    {
      TakeoverStep(n);
    }
    forall n | 0 <= n < 11
      ensures Exclusive(r.worlds[n])
    {
      TakeoverExclusive(n);
    }
    RaceInit();
    assert r.worlds[0] == TakeoverWorld(0) == RaceWorld(0);
  }

  /** Even a single worker touches a foreign floating IP when others take a free one in between. */
  lemma TakeoverTouchesForeign() returns (r: Run, k: nat)
    ensures ExclusiveRun(r) && k < |r.labels| && r.labels[k].Act?
    ensures TouchesForeign(r.worlds[k].cloud, r.worlds[k + 1].cloud, LbName(r.labels[k].ns))
    ensures r.worlds[k].cloud.lbs == [LB_A, LB_B, LB_C] && r.worlds[k].cloud.fips[0].port == LB_C.port
    ensures r.worlds[k + 1].cloud.fips[0].port == LB_A.port && !Managed(LB_C.name)
  {
    r := TakeoverRun();
    k := 9;
    var a, b := Before("pc"), Before("pa");
    assert "pc" != "pa" && "pc" != "pb" && "pc" != "";
    assert a.fips[0].port == "pc" && b.fips[0].port == "pa";
    assert !OnOwnPort(a, LbName("a"), a.fips[0]);
  }

  // ---- a load balancer without a VIP port --------------------------------------------------

  /**
    With an empty VIP port the look-up by port is not a filter: a private cluster may detach any
    floating IP there is, whatever port it serves.
   */
  lemma EmptyPortDetachesAny(c: State, job: Job, lb: Lb, i: nat) returns (es: seq<Event>, b: State)
    requires Coherent(c) && job.private && lb.port == "" && i < |c.fips| && c.fips[i].port != ""
    ensures |es| == 2 && Path(job, FindFip(lb), es)
    ensures Effect(c, es[0], c) && Effect(c, es[1], b)
    ensures b.fips[i].port == ""
  {
    var all := [c.fips[i]] + c.fips[..i] + c.fips[i + 1..];
    b := c.(fips := c.fips[i := c.fips[i].(port := "")]);
    es := [ListFips(OnPort(""), Answer(all)), UpdateFip(i, None, Answer(b.fips[i]))];
    assert AnswersFips(all, c.fips, OnPort("")) by {
      forall k | 0 <= k < |all|
        ensures all[k] == c.fips[if k == 0 then i else if k <= i then k - 1 else k]
      {
      }
      forall f | 0 <= f < |c.fips|
        ensures c.fips[f] in all
      {
        assert all[if f == i then 0 else if f < i then f + 1 else f] == c.fips[f];
      }
    }
    assert es[1..] == [es[1]] && es[1..][1..] == [];
    assert Next(job, FindFip(lb), es[0]) == Detach(lb, c.fips[i]);
    assert Path(job, Detach(lb, c.fips[i]), es[1..]);
  }

  const BARE := Lb(0, LbName("a"), Active, Online, "10.0.0.1", "", 0, [])
  const FOREIGN := Fip(0, "203.0.113.7", "vm", 0, false, "pool", "project")

  function BareJob(private: bool): Job {
    Job(Op.Reconcile, "a", private, {}, [])
  }

  function BareCloud(port: string, records: map<string, Record>): State {
    State([BARE], [FOREIGN.(port := port)], records)
  }

  function BarePc(private: bool, k: nat): Pc {
    match k
    case 1 => Find
    case 2 => Listeners(BARE)
    case 3 => FindFip(BARE)
    case 4 => if private then Detach(BARE, FOREIGN) else Patch(BARE, FOREIGN.addr)
    case _ => if private then Patch(BARE, BARE.vip) else Done(true)
  }

  /** The one load balancer has no VIP port, and the one floating IP serves somebody else's port. */
  function BareWorld(private: bool, k: nat): World {
    World(if k <= 4 then BareCloud("vm", map[])
          else if private then BareCloud("", map[])
          else BareCloud("vm", map["a" := RecordFor(BareJob(false), BARE, FOREIGN.addr)]),
          if k == 0 then map[] else map["a" := Worker(BareJob(private), BarePc(private, k))])
  }

  function BareLabel(private: bool, k: nat): Label
    requires k < 5
  {
    match k
    case 0 => Start("a", BareJob(private))
    case 1 => Act("a", ListLbs(LbName("a"), Answer([BARE])))
    case 2 => Act("a", ListListeners(0, Answer([])))
    case 3 => Act("a", ListFips(OnPort(""), Answer([FOREIGN])))
    case _ =>
      if private then Act("a", UpdateFip(0, None, Answer(FOREIGN.(port := ""))))
      else Act("a", PatchStatus("a", RecordFor(BareJob(false), BARE, FOREIGN.addr), Answer(())))
  }

  lemma BareLooks(private: bool, k: nat)
    requires k < 4
    ensures Step(BareWorld(private, k), BareLabel(private, k), BareWorld(private, k + 1))
  {
    if k == 1 {
      assert LiveOnes([BARE]) == [BARE] by { assert [BARE][1..] == []; }
      assert BARE in [BARE];
    } else if k == 3 {
      assert FOREIGN in [FOREIGN];
    }
  }

  lemma BareWrites(private: bool)
    ensures Step(BareWorld(private, 4), BareLabel(private, 4), BareWorld(private, 5))
  {
    var a, b := BareWorld(private, 4).cloud, BareWorld(private, 5).cloud;
    if private {
      assert b.fips == a.fips[0 := a.fips[0].(port := "")];
    } else {
      assert b == a.(records := a.records["a" := RecordFor(BareJob(false), BARE, FOREIGN.addr)]);
    }
  }

  lemma BareRun(private: bool) returns (r: Run)
    ensures ValidRun(r) && |r.worlds| == 6 && r.worlds[0] == BareWorld(private, 0)
    ensures r.worlds[5] == BareWorld(private, 5)
    ensures forall k :: 0 <= k < 5 ==> !r.labels[k].Environment?
  {
    r := Run(seq(6, k requires 0 <= k < 6 => BareWorld(private, k)),
             seq(5, k requires 0 <= k < 5 => BareLabel(private, k)));
    forall k: nat | k < 5
      ensures StepAt(r, k)
    {
      if k < 4 {
        BareLooks(private, k);
      } else {
        BareWrites(private);
      }
    }
  }

  /** A whole run in which a private cluster without a VIP port takes an address away from somebody else's port. */
  lemma EmptyPortDetachesForeign() returns (r: Run)
    ensures ValidRun(r) && |r.worlds| == 6
    ensures r.worlds[0].cloud.fips == [FOREIGN] && r.worlds[5].cloud.fips == [FOREIGN.(port := "")]
    ensures forall k :: 0 <= k < |r.labels| ==> !r.labels[k].Environment?
  {
    r := BareRun(true);
  }

  /**
    A whole run in which a public cluster without a VIP port succeeds and stores an address that serves
    somebody else's port.
   */
  lemma EmptyPortServesForeign() returns (r: Run)
    ensures ValidRun(r) && |r.worlds| == 6 && r.worlds[5].workers == map["a" := Worker(BareJob(false), Done(true))]
    ensures r.worlds[5].cloud.fips == [FOREIGN] && "a" in r.worlds[5].cloud.records
    ensures r.worlds[5].cloud.records["a"].external == Some(FOREIGN.addr)
    ensures !RecordSound(r.worlds[5].cloud, BareJob(false))
  {
    r := BareRun(false);
    var c := r.worlds[5].cloud;
    forall i, addr
      ensures !RecordDescribes(c, BareJob(false), i, addr)
    {
      assert "vm" != "";
      assert forall f :: !On(c, f, "");
      assert LiveNamed(c, i, LbName("a")) ==> i == 0;
    }
  }
}
