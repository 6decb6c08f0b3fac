// The cloud as an object: every API call is a method whose answer is nondeterministic within the
// effects of CloudModel, and which moves a ghost program counter along Program.Next. A controller
// method that verifies against this class can therefore only make the calls of the program, in its order.
module Service {
  import opened Text
  import opened CloudModel
  import opened Program
  import opened Backoff

  /** The most polls a cooperative cloud lets pass before a transition is complete. */
  const MAX_LAG: nat := DELETE_STEPS - 1

  /** What a cooperative cloud turns a pending load balancer into. */
  function Completed(st: State, id: nat): State {
    if id >= |st.lbs| then st
    else match st.lbs[id].status
      case PendingCreate | PendingUpdate => WithStatus(st, id, Active)
      case PendingDelete => WithStatus(st, id, Purged)
      case _ => st
  }

  /** The time in which the calls fall. */
  datatype Span = Span(earliest: int, latest: int)

  /** Healthy, or at no time older than the operating timeout. */
  predicate Timely(lb: Lb, clock: Span) {
    Unhealthy(lb) ==> lb.created >= clock.latest - OPERATING_TIMEOUT
  }

  /** Unhealthy, and at all times older than the operating timeout. */
  predicate Overdue(lb: Lb, clock: Span) {
    Unhealthy(lb) && lb.created < clock.earliest - OPERATING_TIMEOUT
  }

  ghost predicate CanRebind(fips: seq<Fip>, f: nat, port: Option<string>) {
    f < |fips| && (port.Some? ==> port.value != "" && Vacant(fips, port.value, fips[f].pool, f))
  }

  /** A cooperative cloud refuses nothing that is possible, and it is not called later than it says. */
  ghost predicate Cooperates(a: State, e: Event, b: State, clock: Span) {
    match e
    case ListLbs(_, r) => r.Answer?
    case Lookup(_, r) => r.Answer?
    case CreateLb(_, _, r) => r.Answer? && Timely(r.value, clock)
    case GetLb(id, r) => if id < |a.lbs| && !a.lbs[id].status.Purged? then r.Answer? else r.NotFound?
    case DeleteLb(id, r) => if id < |a.lbs| && Live(a.lbs[id].status) then r.Answer? else r.NotFound?
    case ListListeners(id, r) => id < |a.lbs| ==> r.Answer?
    case ListenersNamed(id, _, pages) => CleanPages(pages)
    case UpdateListener(id, l, _, r) =>
      id < |a.lbs| && Live(a.lbs[id].status) && l < |a.lbs[id].listeners| ==> r.Answer?
    case KeepListener(_, _) => true
    case ListFips(_, r) => r.Answer?
    case ListForwardings(f, r) => f < |a.fips| ==> r.Answer?
    case UpdateFip(f, port, r) => r.Answer? || (b == a && !CanRebind(a.fips, f, port))
    case ListSubnets(_, r) => r.Answer? && r.value != []
    case CreateFip(port, pool, _, _, r) => port != "" && Vacant(a.fips, port, pool, |a.fips|) ==> r.Answer?
    case ReadClock(now) => clock.earliest <= now <= clock.latest
    case PatchStatus(_, _, r) => r.Answer?
  }

  class Cloud {
    const alone: bool         // nobody else acts between the calls; statuses still move
    const cooperative: bool   // alone, and every possible call succeeds
    const clock: Span         // when a cooperative cloud is called
    var st: State
    var lag: nat
    ghost var job: Job
    ghost var pc: Pc
    ghost var log: seq<Event> // the calls of this run, with their answers
    ghost var seen: State     // the state the last call was answered in

    ghost predicate Valid()
      reads this
    {
      Coherent(st) && lag <= MAX_LAG && (cooperative ==> alone) && clock.earliest <= clock.latest && Traced()
    }

    /**
      The program permits the calls made so far, and they have led to where it stands. The bound
      name keeps the history from being unfolded wherever Valid() is at hand.
     */
    ghost predicate Traced()
      reads this
    {
      forall es :: es == log ==> Path(job, Find, es) && After(job, Find, es) == pc
    }

    constructor (st: State, alone: bool, cooperative: bool, clock: Span)
      requires Coherent(st) && (cooperative ==> alone) && clock.earliest <= clock.latest
      ensures Valid() && this.st == st && this.alone == alone && this.cooperative == cooperative && this.clock == clock
      ensures pc == Find && log == []
    {
      this.st, this.alone, this.cooperative, this.clock := st, alone, cooperative, clock;
      lag := 0;
      job, pc, log := Job(Reconcile, "", false, {}, []), Find, [];
      seen := st;
    }

    /** A call was made: the program permitted it, moved on, and the answer fits the state it met. */
    twostate predicate Called(e: Event)
      reads this
    {
      && Valid() && job == old(job)
      && Permits(job, old(pc), e) && pc == Next(job, old(pc), e) && log == old(log) + [e]
      && Effect(seen, e, st)
      && (alone ==> Drift(old(st), seen))
      && (cooperative ==> Cooperates(seen, e, st, clock) && (!e.GetLb? ==> seen == old(st)))
      && (cooperative && e.GetLb? ==>
            && lag == (if old(lag) > 0 then old(lag) - 1 else 0)
            && seen == if old(lag) > 0 then old(st) else Completed(old(st), e.id))
    }

    /** A new run of the controller begins. */
    ghost method Begin(job: Job)
      requires Valid()
      modifies `job, `pc, `log
      ensures Valid() && this.job == job && pc == Find && log == []
    {
      this.job, pc, log := job, Find, [];
    }

    /** The call is made: the program moves on. */
    ghost method Record(e: Event)
      requires Traced() && Permits(job, pc, e)
      modifies `pc, `log
      ensures Traced() && pc == Next(job, old(pc), e) && log == old(log) + [e]
    {
      PathExtends(job, Find, log, e);
      pc, log := Next(job, pc, e), log + [e];
    }

    /** Between two calls the cloud, and without `alone` everybody else, may do something. */
    method Pass()
      requires Valid()
      modifies `st, `seen
      ensures Valid() && seen == st
      ensures alone ==> Drift(old(st), st)
      ensures cooperative ==> st == old(st)
    {
      if !cooperative {
        var t: State := *;
        if Coherent(t) && (alone ==> Drift(st, t)) {
          st := t;
        }
      }
      seen := st;
    }

    method LbsNamed(name: string) returns (found: seq<Lb>)
      requires Coherent(st)
      ensures AnswersLbs(found, st.lbs, name)
    {
      found := [];
      for i := 0 to |st.lbs|
        invariant forall k :: 0 <= k < |found| ==>
                    found[k].id < i && st.lbs[found[k].id] == found[k] && Listable(found[k], name)
        invariant forall k :: 0 <= k < i && Listable(st.lbs[k], name) ==> st.lbs[k] in found
        invariant forall j, k :: 0 <= j < k < |found| ==> found[j].id != found[k].id
      {
        if Listable(st.lbs[i], name) {
          found := found + [st.lbs[i]];
        }
      }
    }

    method ListLbs(name: string) returns (r: Reply<seq<Lb>>)
      requires Valid() && Permits(job, pc, Event.ListLbs(name, Failed))
      modifies this
      ensures Called(Event.ListLbs(name, r))
    {
      Pass();
      var works: bool := *;
      r := Failed;
      if works || cooperative {
        var found := LbsNamed(name);
        r := Answer(found);
      }
      Record(Event.ListLbs(name, r));
    }

    method Lookup(kind: LookupKind) returns (r: Reply<string>)
      requires Valid() && Permits(job, pc, Event.Lookup(kind, Failed))
      modifies this
      ensures Called(Event.Lookup(kind, r))
    {
      Pass();
      var works: bool := *;
      var found: string := *;
      r := if works || cooperative then Answer(found) else Failed;
      Record(Event.Lookup(kind, r));
    }

    /** A port name that nothing uses: longer than all others. */
    method FreshPort() returns (port: string)
      ensures port != ""
      ensures forall i :: 0 <= i < |st.lbs| ==> st.lbs[i].port != port
      ensures forall i :: 0 <= i < |st.fips| ==> st.fips[i].port != port
    {
      port := "p";
      for i := 0 to |st.lbs|
        invariant port != "" && forall k :: 0 <= k < i ==> |st.lbs[k].port| < |port|
      {
        port := port + st.lbs[i].port;
      }
      for i := 0 to |st.fips|
        invariant port != "" && forall k :: 0 <= k < |st.lbs| ==> |st.lbs[k].port| < |port|
        invariant forall k :: 0 <= k < i ==> |st.fips[k].port| < |port|
      {
        port := port + st.fips[i].port;
      }
    }

    /** The new load balancer appears: pending, on a fresh port, with the listeners asked for. */
    method AddLb(name: string, specs: seq<ListenerSpec>) returns (lb: Lb)
      requires Valid()
      modifies `st, `lag
      ensures Valid() && Adds(old(st), name, specs, st) && lb == st.lbs[|old(st).lbs|]
      ensures cooperative ==> Timely(lb, clock)
    {
      var port := FreshPort();
      var vip: string, created: int, oper: Operating := *, *, *;
      if cooperative && created < clock.latest - OPERATING_TIMEOUT {
        created := clock.latest;
      }
      var listeners := seq(|specs|, j requires 0 <= j < |specs| => Listener(j, specs[j].name, specs[j].cidrs));
      lb := Lb(|st.lbs|, name, PendingCreate, oper, vip, port, created, listeners);
      st := st.(lbs := st.lbs + [lb]);
      lag := PickLag();
    }

    method CreateLb(name: string, specs: seq<ListenerSpec>) returns (r: Reply<Lb>)
      requires Valid() && Permits(job, pc, Event.CreateLb(name, specs, Failed))
      modifies this
      ensures Called(Event.CreateLb(name, specs, r))
    {
      Pass();
      var works: bool, takes: bool := *, *;
      works := works || cooperative;
      r := Failed;
      if works || takes {
        var lb := AddLb(name, specs);
        if works {
          r := Answer(lb);
        }
      }
      Record(Event.CreateLb(name, specs, r));
    }

    method PickLag() returns (n: nat)
      ensures n <= MAX_LAG
    {
      var m: nat := *;
      n := m % (MAX_LAG + 1);
    }

    /** A cooperative cloud uses up its lag poll by poll, then completes what is pending. */
    method Settle(id: nat)
      requires Valid() && seen == st
      modifies `st, `lag, `seen
      ensures Valid() && seen == st
      ensures !cooperative ==> st == old(st)
      ensures cooperative ==>
                && Drift(old(st), st)
                && lag == (if old(lag) > 0 then old(lag) - 1 else 0)
                && st == if old(lag) > 0 then old(st) else Completed(old(st), id)
    {
      if cooperative {
        if lag > 0 {
          lag := lag - 1;
        } else {
          st := Completed(st, id);
        }
        seen := st;
      }
    }

    method GetLb(id: nat) returns (r: Reply<Lb>)
      requires Valid() && Permits(job, pc, Event.GetLb(id, Failed))
      modifies this
      ensures Called(Event.GetLb(id, r))
    {
      Pass();
      Settle(id);
      var works: bool := *;
      if id >= |st.lbs| || st.lbs[id].status.Purged? {
        r := NotFound;
      } else if works || cooperative {
        r := Answer(st.lbs[id]);
      } else {
        r := Failed;
      }
      Record(Event.GetLb(id, r));
    }

    method DeleteLb(id: nat) returns (r: Reply<()>)
      requires Valid() && Permits(job, pc, Event.DeleteLb(id, Failed))
      modifies this
      ensures Called(Event.DeleteLb(id, r))
    {
      Pass();
      var works: bool, takes: bool := *, *;
      works := works || cooperative;
      if id >= |st.lbs| || !Live(st.lbs[id].status) {
        r := if works then NotFound else Failed;
      } else {
        r := if works then Answer(()) else Failed;
        if works || takes {
          st := WithStatus(st, id, PendingDelete);
          lag := PickLag();
        }
      }
      Record(Event.DeleteLb(id, r));
    }

    method ListListeners(id: nat) returns (r: Reply<seq<Listener>>)
      requires Valid() && Permits(job, pc, Event.ListListeners(id, Failed))
      modifies this
      ensures Called(Event.ListListeners(id, r))
    {
      Pass();
      var works: bool := *;
      r := if id < |st.lbs| && (works || cooperative) then Answer(st.lbs[id].listeners) else Failed;
      Record(Event.ListListeners(id, r));
    }

    method ListenersNamed(id: nat, name: string) returns (pages: seq<Reply<seq<Listener>>>)
      requires Valid() && Permits(job, pc, Event.ListenersNamed(id, name, []))
      modifies this
      ensures Called(Event.ListenersNamed(id, name, pages))
    {
      Pass();
      var works: bool := *;
      pages := [];
      if !works && !cooperative {
        pages := [Failed];
      } else if id < |st.lbs| {
        var matches := Named(st.lbs[id].listeners, name);
        if matches != [] {
          pages := [Answer(matches)];
        }
        assert Flatten(pages) == matches;
      }
      Record(Event.ListenersNamed(id, name, pages));
    }

    method EditListener(id: nat, l: nat, cidrs: seq<string>)
      requires Valid() && id < |st.lbs| && Live(st.lbs[id].status) && l < |st.lbs[id].listeners|
      modifies `st, `lag
      ensures Valid() && Edits(old(st), id, l, cidrs, st)
    {
      var ls := st.lbs[id].listeners;
      var lb := st.lbs[id].(status := PendingUpdate, listeners := ls[l := ls[l].(cidrs := cidrs)]);
      st := st.(lbs := st.lbs[id := lb]);
      lag := PickLag();
    }

    method UpdateListener(id: nat, l: nat, cidrs: seq<string>) returns (r: Reply<()>)
      requires Valid() && Permits(job, pc, Event.UpdateListener(id, l, cidrs, Failed))
      modifies this
      ensures Called(Event.UpdateListener(id, l, cidrs, r))
    {
      Pass();
      var works: bool, takes: bool := *, *;
      works := works || cooperative;
      r := Failed;
      if id < |st.lbs| && Live(st.lbs[id].status) && l < |st.lbs[id].listeners| && (works || takes) {
        EditListener(id, l, cidrs);
        if works {
          r := Answer(());
        }
      }
      Record(Event.UpdateListener(id, l, cidrs, r));
    }

    /** No call: the program leaves a listener as it is. */
    ghost method KeepListener(id: nat, l: nat)
      requires Valid() && Permits(job, pc, Event.KeepListener(id, l))
      modifies `pc, `log, `seen
      ensures Called(Event.KeepListener(id, l))
    {
      seen := st;
      Record(Event.KeepListener(id, l));
    }

    method FipsHit(q: FipQuery) returns (found: seq<Fip>)
      requires Coherent(st)
      ensures AnswersFips(found, st.fips, q)
    {
      found := [];
      for i := 0 to |st.fips|
        invariant forall k :: 0 <= k < |found| ==>
                    found[k].id < i && st.fips[found[k].id] == found[k] && Hits(q, found[k])
        invariant forall k :: 0 <= k < i && Hits(q, st.fips[k]) ==> st.fips[k] in found
        invariant forall j, k :: 0 <= j < k < |found| ==> found[j].id != found[k].id
      {
        if Hits(q, st.fips[i]) {
          found := found + [st.fips[i]];
        }
      }
    }

    method ListFips(q: FipQuery) returns (r: Reply<seq<Fip>>)
      requires Valid() && Permits(job, pc, Event.ListFips(q, Failed))
      modifies this
      ensures Called(Event.ListFips(q, r))
    {
      Pass();
      var works: bool := *;
      r := Failed;
      if works || cooperative {
        var found := FipsHit(q);
        r := Answer(found);
      }
      Record(Event.ListFips(q, r));
    }

    method ListForwardings(f: nat) returns (r: Reply<nat>)
      requires Valid() && Permits(job, pc, Event.ListForwardings(f, Failed))
      modifies this
      ensures Called(Event.ListForwardings(f, r))
    {
      Pass();
      var works: bool := *;
      r := if f < |st.fips| && (works || cooperative) then Answer(st.fips[f].forwards) else Failed;
      Record(Event.ListForwardings(f, r));
    }

    predicate PortFree(port: string, pool: string, except: nat)
      reads this
      ensures PortFree(port, pool, except) <==> Vacant(st.fips, port, pool, except)
    {
      forall i :: 0 <= i < |st.fips| && i != except ==> !(st.fips[i].port == port && st.fips[i].pool == pool)
    }

    method Rebind(f: nat, target: Option<string>)
      requires Valid() && f < |st.fips|
      requires target.Some? ==> target.value != "" && Vacant(st.fips, target.value, st.fips[f].pool, f)
      modifies `st
      ensures Valid() && Rebinds(old(st), f, target, st)
    {
      st := st.(fips := st.fips[f := st.fips[f].(port := if target.Some? then target.value else "")]);
    }

    method UpdateFip(f: nat, target: Option<string>) returns (r: Reply<Fip>)
      requires Valid() && Permits(job, pc, Event.UpdateFip(f, target, Failed))
      modifies this
      ensures Called(Event.UpdateFip(f, target, r))
    {
      Pass();
      var works: bool, takes: bool := *, *;
      works := works || cooperative;
      r := Failed;
      var possible :=
        f < |st.fips| && (target.Some? ==> target.value != "" && PortFree(target.value, st.fips[f].pool, f));
      if possible && (works || takes) {
        Rebind(f, target);
        if works {
          r := Answer(st.fips[f]);
        }
      }
      Record(Event.UpdateFip(f, target, r));
    }

    method ListSubnets(pool: string) returns (r: Reply<seq<string>>)
      requires Valid() && Permits(job, pc, Event.ListSubnets(pool, Failed))
      modifies this
      ensures Called(Event.ListSubnets(pool, r))
    {
      Pass();
      var works: bool := *;
      var subnets: seq<string> := *;
      if cooperative && subnets == [] {
        subnets := [""];
      }
      r := if works || cooperative then Answer(subnets) else Failed;
      Record(Event.ListSubnets(pool, r));
    }

    method AddFip(port: string, pool: string, project: string) returns (fip: Fip)
      requires Valid() && port != "" && Vacant(st.fips, port, pool, |st.fips|)
      modifies `st
      ensures Valid() && AddsFip(old(st), port, pool, project, st) && fip == st.fips[|old(st).fips|]
    {
      var addr: string := *;
      fip := Fip(|st.fips|, addr, port, 0, false, pool, project);
      st := st.(fips := st.fips + [fip]);
    }

    method CreateFip(port: string, pool: string, project: string, subnet: string) returns (r: Reply<Fip>)
      requires Valid() && Permits(job, pc, Event.CreateFip(port, pool, project, subnet, Failed))
      modifies this
      ensures Called(Event.CreateFip(port, pool, project, subnet, r))
    {
      Pass();
      var works: bool, takes: bool := *, *;
      works := works || cooperative;
      r := Failed;
      if port != "" && PortFree(port, pool, |st.fips|) && (works || takes) {
        var fip := AddFip(port, pool, project);
        if works {
          r := Answer(fip);
        }
      }
      Record(Event.CreateFip(port, pool, project, subnet, r));
    }

    method ReadClock() returns (now: int)
      requires Valid() && Permits(job, pc, Event.ReadClock(0))
      modifies this
      ensures Called(Event.ReadClock(now))
    {
      Pass();
      now := *;
      if cooperative && !(clock.earliest <= now <= clock.latest) {
        now := clock.latest;
      }
      Record(Event.ReadClock(now));
    }

    method PatchStatus(ns: string, record: Record) returns (r: Reply<()>)
      requires Valid() && Permits(job, pc, Event.PatchStatus(ns, record, Failed))
      modifies this
      ensures Called(Event.PatchStatus(ns, record, r))
    {
      Pass();
      var works: bool, takes: bool := *, *;
      works := works || cooperative;
      if works || takes {
        st := st.(records := st.records[ns := record]);
      }
      r := if works then Answer(()) else Failed;
      Record(Event.PatchStatus(ns, record, r));
    }
  }
}
