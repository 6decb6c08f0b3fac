// The cloud as the controller sees it: its state, the API calls, and what each call may do.
module CloudModel {
  import opened Text

  // ---- state ------------------------------------------------------------------------------

  /** Provisioning status; a purged load balancer is one the API no longer knows. */
  datatype Status = PendingCreate | PendingUpdate | Active | Error | OtherStatus(text: string)
                  | PendingDelete | Deleted | Purged

  datatype Operating = Online | Offline | OperError | OtherOperating(text: string)

  predicate Live(s: Status) {
    !s.PendingDelete? && !s.Deleted? && !s.Purged?
  }

  datatype Listener = Listener(id: nat, name: string, cidrs: seq<string>)

  datatype Lb = Lb(id: nat, name: string, status: Status, oper: Operating,
                   vip: string, port: string, created: int, listeners: seq<Listener>)

  /** A floating IP; it is unbound when its port is the empty string. */
  datatype Fip = Fip(id: nat, addr: string, port: string, forwards: nat, down: bool, pool: string, project: string)

  /** The record kept in the status of an extension. */
  datatype Record = Record(internal: Option<string>, external: Option<string>, clusterType: string)

  /** Identifiers are positions and never reused; a load balancer leaves by becoming purged. */
  datatype State = State(lbs: seq<Lb>, fips: seq<Fip>, records: map<string, Record>)

  predicate Coherent(st: State) {
    && (forall i :: 0 <= i < |st.lbs| ==>
          && st.lbs[i].id == i
          && forall j :: 0 <= j < |st.lbs[i].listeners| ==> st.lbs[i].listeners[j].id == j)
    && (forall i :: 0 <= i < |st.fips| ==> st.fips[i].id == i)
  }

  // ---- calls ------------------------------------------------------------------------------

  datatype Reply<+T> = Answer(value: T) | NotFound | Failed

  datatype PoolMember = PoolMember(address: string, port: nat)

  datatype ListenerSpec = ListenerSpec(name: string, port: nat, cidrs: seq<string>, members: seq<PoolMember>)

  datatype LookupKind = WorkerSubnet | FlavorId | NetworkProject | PoolId

  datatype FipQuery = OnPort(port: string) | DownIn(pool: string, project: string)

  /** An API call together with its answer. */
  datatype Event =
    | ListLbs(name: string, lbs: Reply<seq<Lb>>)
    | Lookup(kind: LookupKind, found: Reply<string>)
    | CreateLb(name: string, specs: seq<ListenerSpec>, made: Reply<Lb>)
    | GetLb(id: nat, got: Reply<Lb>)
    | DeleteLb(id: nat, gone: Reply<()>)
    | ListListeners(id: nat, listeners: Reply<seq<Listener>>)
    | ListenersNamed(id: nat, name: string, pages: seq<Reply<seq<Listener>>>)
    | UpdateListener(id: nat, listener: nat, cidrs: seq<string>, updated: Reply<()>)
    | KeepListener(id: nat, listener: nat)   // no call at all: the listener is right already
    | ListFips(query: FipQuery, fips: Reply<seq<Fip>>)
    | ListForwardings(fip: nat, count: Reply<nat>)
    | UpdateFip(fip: nat, target: Option<string>, bound: Reply<Fip>)
    | ListSubnets(pool: string, subnets: Reply<seq<string>>)
    | CreateFip(port: string, pool: string, project: string, subnet: string, obtained: Reply<Fip>)
    | ReadClock(now: int)
    | PatchStatus(ns: string, record: Record, patched: Reply<()>)

  // ---- answers of the listing calls -------------------------------------------------------

  ghost predicate AnswersLbs(r: seq<Lb>, lbs: seq<Lb>, name: string) {
    && (forall k :: 0 <= k < |r| ==> r[k].id < |lbs| && lbs[r[k].id] == r[k] && Listable(r[k], name))
    && (forall i :: 0 <= i < |lbs| && Listable(lbs[i], name) ==> lbs[i] in r)
    && (forall j, k :: 0 <= j < k < |r| ==> r[j].id != r[k].id)
  }

  predicate Listable(lb: Lb, name: string) {
    lb.name == name && !lb.status.Purged?
  }

  /** The port filter is left out of the query when it is empty; so is the status filter of OnPort. */
  predicate Hits(q: FipQuery, f: Fip) {
    match q
    case OnPort(port) => port == "" || f.port == port
    case DownIn(pool, project) => f.down && f.pool == pool && f.project == project
  }

  ghost predicate AnswersFips(r: seq<Fip>, fips: seq<Fip>, q: FipQuery) {
    && (forall k :: 0 <= k < |r| ==> r[k].id < |fips| && fips[r[k].id] == r[k] && Hits(q, r[k]))
    && (forall i :: 0 <= i < |fips| && Hits(q, fips[i]) ==> fips[i] in r)
    && (forall j, k :: 0 <= j < k < |r| ==> r[j].id != r[k].id)
  }

  function Named(listeners: seq<Listener>, name: string): (r: seq<Listener>)
    ensures forall l :: l in r <==> l in listeners && l.name == name
  {
    if listeners == [] then []
    else
      var rest := Named(listeners[1..], name);
      if listeners[0].name == name then [listeners[0]] + rest else rest
  }

  /** All pages up to the first that failed, laid end to end. */
  function Flatten(pages: seq<Reply<seq<Listener>>>): seq<Listener> {
    if pages == [] || !pages[0].Answer? then [] else pages[0].value + Flatten(pages[1..])
  }

  predicate CleanPages(pages: seq<Reply<seq<Listener>>>) {
    forall k :: 0 <= k < |pages| ==> pages[k].Answer? && pages[k].value != []
  }

  ghost predicate AnswersPages(pages: seq<Reply<seq<Listener>>>, listeners: seq<Listener>, name: string) {
    && (forall k :: 0 <= k < |pages| && pages[k].Answer? ==> pages[k].value != [])
    && (CleanPages(pages) ==> Flatten(pages) == Named(listeners, name))
  }

  // ---- effects ----------------------------------------------------------------------------

  function WithStatus(st: State, id: nat, s: Status): State
    requires id < |st.lbs|
  {
    st.(lbs := st.lbs[id := st.lbs[id].(status := s)])
  }

  /** The new load balancer has a fresh identifier and a fresh port, and the listeners asked for. */
  ghost predicate Adds(a: State, name: string, specs: seq<ListenerSpec>, b: State) {
    && |b.lbs| == |a.lbs| + 1
    && b == a.(lbs := a.lbs + [b.lbs[|a.lbs|]])
    && var lb := b.lbs[|a.lbs|];
       && lb.id == |a.lbs| && lb.name == name && lb.status == PendingCreate
       && lb.port != ""
       && (forall i :: 0 <= i < |a.lbs| ==> a.lbs[i].port != lb.port)
       && (forall i :: 0 <= i < |a.fips| ==> a.fips[i].port != lb.port)
       && |lb.listeners| == |specs|
       && (forall j :: 0 <= j < |specs| ==> lb.listeners[j] == Listener(j, specs[j].name, specs[j].cidrs))
  }

  ghost predicate Removes(a: State, id: nat, b: State) {
    id < |a.lbs| && Live(a.lbs[id].status) && b == WithStatus(a, id, PendingDelete)
  }

  ghost predicate Edits(a: State, id: nat, listener: nat, cidrs: seq<string>, b: State) {
    && id < |a.lbs| && Live(a.lbs[id].status) && listener < |a.lbs[id].listeners|
    && var ls := a.lbs[id].listeners;
       b == a.(lbs := a.lbs[id := a.lbs[id].(status := PendingUpdate,
                                             listeners := ls[listener := ls[listener].(cidrs := cidrs)])])
  }

  /** No floating IP of the pool, other than `except`, sits on the port. */
  ghost predicate Vacant(fips: seq<Fip>, port: string, pool: string, except: nat) {
    forall i :: 0 <= i < |fips| && i != except ==> !(fips[i].port == port && fips[i].pool == pool)
  }

  /** Rebinding is refused for an empty port and for a second address of one pool on one port. */
  ghost predicate Rebinds(a: State, fip: nat, port: Option<string>, b: State) {
    && fip < |a.fips|
    && (port.Some? ==> port.value != "" && Vacant(a.fips, port.value, a.fips[fip].pool, fip))
    && b == a.(fips := a.fips[fip := a.fips[fip].(port := if port.Some? then port.value else "")])
  }

  ghost predicate AddsFip(a: State, port: string, pool: string, project: string, b: State) {
    && port != "" && Vacant(a.fips, port, pool, |a.fips|)
    && |b.fips| == |a.fips| + 1
    && b == a.(fips := a.fips + [b.fips[|a.fips|]])
    && var f := b.fips[|a.fips|];
       f.id == |a.fips| && f.port == port && f.pool == pool && f.project == project && f.forwards == 0
  }

  /** A write that succeeds takes effect; one that reports an error may still have taken effect. */
  ghost predicate Effect(a: State, e: Event, b: State) {
    match e
    case ListLbs(name, r) => b == a && (r.Answer? ==> AnswersLbs(r.value, a.lbs, name))
    case Lookup(_, _) => b == a
    case CreateLb(name, specs, r) =>
      if r.Answer? then Adds(a, name, specs, b) && r.value == b.lbs[|a.lbs|]
      else b == a || Adds(a, name, specs, b)
    case GetLb(id, r) =>
      && b == a
      && (r.Answer? ==> id < |a.lbs| && !a.lbs[id].status.Purged? && r.value == a.lbs[id])
      && (r.NotFound? ==> id >= |a.lbs| || a.lbs[id].status.Deleted? || a.lbs[id].status.Purged?)
    case DeleteLb(id, r) =>
      if r.Answer? then Removes(a, id, b)
      else if r.NotFound? then b == a && (id >= |a.lbs| || !Live(a.lbs[id].status))
      else b == a || Removes(a, id, b)
    case ListListeners(id, r) => b == a && (r.Answer? ==> id < |a.lbs| && r.value == a.lbs[id].listeners)
    case ListenersNamed(id, name, pages) =>
      && b == a
      && (id < |a.lbs| ==> AnswersPages(pages, a.lbs[id].listeners, name))
    case UpdateListener(id, l, cidrs, r) =>
      if r.Answer? then Edits(a, id, l, cidrs, b) else b == a || Edits(a, id, l, cidrs, b)
    case KeepListener(_, _) => b == a
    case ListFips(q, r) => b == a && (r.Answer? ==> AnswersFips(r.value, a.fips, q))
    case ListForwardings(f, r) => b == a && (r.Answer? ==> f < |a.fips| && r.value == a.fips[f].forwards)
    case UpdateFip(f, port, r) =>
      if r.Answer? then Rebinds(a, f, port, b) && r.value == b.fips[f] else b == a || Rebinds(a, f, port, b)
    case ListSubnets(_, _) => b == a
    case CreateFip(port, pool, project, _, r) =>
      if r.Answer? then AddsFip(a, port, pool, project, b) && r.value == b.fips[|a.fips|]
      else b == a || AddsFip(a, port, pool, project, b)
    case ReadClock(_) => b == a
    case PatchStatus(ns, record, r) =>
      var patched := a.(records := a.records[ns := record]);
      if r.Answer? then b == patched else b == a || b == patched
  }

  /**
    The patch of an extension's status sends the fields that differ from the controller's own copy (all of
    them when there is none); the server keeps its own value of the others.
   */
  function Merged(stored: Record, copy: Option<Record>, record: Record): Record {
    Record(
      if copy.Some? && copy.value.internal == record.internal then stored.internal else record.internal,
      if copy.Some? && copy.value.external == record.external then stored.external else record.external,
      if copy.Some? && copy.value.clusterType == record.clusterType then stored.clusterType else record.clusterType)
  }

  /**
    So the record is stored as a whole, as the effect of PatchStatus says, exactly when every field that
    the controller believes to be right is right; in particular when its copy is up to date.
   */
  lemma MergeStoresIff(stored: Record, copy: Option<Record>, record: Record)
    ensures Merged(stored, copy, record) == record <==>
            (copy.Some? ==>
               && (copy.value.internal == record.internal ==> stored.internal == record.internal)
               && (copy.value.external == record.external ==> stored.external == record.external)
               && (copy.value.clusterType == record.clusterType ==> stored.clusterType == record.clusterType))
    ensures copy == None || copy.value == stored ==> Merged(stored, copy, record) == record
  {
  }

  lemma EffectCoherent(a: State, e: Event, b: State)
    requires Coherent(a) && Effect(a, e, b)
    ensures Coherent(b)
  {
  }

  // ---- what the cloud does by itself ------------------------------------------------------

  /** Only statuses differ, and a load balancer that is being deleted never comes back to life. */
  predicate Keeps(x: Lb, y: Lb) {
    y == x.(status := y.status, oper := y.oper, listeners := y.listeners) && Live(x.status) == Live(y.status)
  }

  predicate Drift(a: State, b: State) {
    && b.fips == a.fips && b.records == a.records && |b.lbs| == |a.lbs|
    && forall i :: 0 <= i < |a.lbs| ==> Keeps(a.lbs[i], b.lbs[i]) && a.lbs[i].listeners == b.lbs[i].listeners
  }

  predicate SameNames(x: seq<Listener>, y: seq<Listener>) {
    |x| == |y| && forall k :: 0 <= k < |x| ==> x[k].name == y[k].name
  }

  /** Drift plus edits to the listeners of one load balancer. */
  predicate Tends(a: State, b: State, id: nat) {
    && b.fips == a.fips && b.records == a.records && |b.lbs| == |a.lbs|
    && forall i :: 0 <= i < |a.lbs| ==> 
         && Keeps(a.lbs[i], b.lbs[i]) && SameNames(a.lbs[i].listeners, b.lbs[i].listeners)
         && (i != id ==> a.lbs[i].listeners == b.lbs[i].listeners)
  }
}
