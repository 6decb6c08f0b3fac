// The subnet filter and its push-down into the list query (pkg/helper/openstack.go).
module SubnetFilter {
  import opened Text

  datatype Subnet = Subnet(id: string, name: string, tags: seq<string>)

  type Matcher = Subnet -> bool

  // ---- tag specifications -----------------------------------------------------------------

  /** A comma-separated list of tags, optionally negated (`!`), any-of or all-of (`&`). */
  datatype TagSpec = TagSpec(list: seq<string>, not: bool, all: bool) {

    /** The logical reading: not XOR (every listed tag, or some listed tag, is present). */
    predicate Selects(tags: seq<string>) {
      not != if all then Every(tags) else Any(tags)
    }

    predicate Every(tags: seq<string>) {
      forall t :: t in list ==> t in tags
    }

    predicate Any(tags: seq<string>) {
      exists t :: t in list && t in tags
    }

    function Print(): string
      requires |list| >= 1
    {
      (if not then "!" else "") + (if all then "&" else "") + Join(list, ',')
    }
  }

  function Trims(parts: seq<string>): (r: seq<string>)
    ensures |r| == |parts|
    ensures forall i :: 0 <= i < |parts| ==> r[i] == TrimSpace(parts[i])
  {
    if parts == [] then [] else [TrimSpace(parts[0])] + Trims(parts[1..])
  }

  predicate HasPrefix(s: string, c: char) {
    s != "" && s[0] == c
  }

  function TagsOf(tags: string): (t: TagSpec)
    ensures |t.list| >= 1
  {
    var not := HasPrefix(tags, '!');
    var rest := if not then tags[1..] else tags;
    var all := HasPrefix(rest, '&');
    var names := if all then rest[1..] else rest;
    TagSpec(Trims(Split(names, ',')), not, all)
  }

  method TagList(tags: string) returns (list: array<string>, not: bool, all: bool)
    ensures fresh(list) && TagSpec(list[..], not, all) == TagsOf(tags)
  {
    var rest := tags;
    not := HasPrefix(rest, '!');
    if not {
      rest := rest[1..];
    }
    all := HasPrefix(rest, '&');
    if all {
      rest := rest[1..];
    }
    var parts := Split(rest, ',');
    list := new string[|parts|](i requires 0 <= i < |parts| => parts[i]);
    for i := 0 to list.Length
      invariant forall k :: 0 <= k < i ==> list[k] == TrimSpace(parts[k])
      invariant forall k :: i <= k < list.Length ==> list[k] == parts[k]
    {
      list[i] := TrimSpace(list[i]);
    }
    assert list[..] == Trims(parts);
  }

  /** The early-exit loops of the tag matcher compute the logical reading. */
  method SubnetTagMatch(spec: TagSpec, s: Subnet) returns (r: bool)
    ensures r <==> spec.Selects(s.tags)
  {
    var TagSpec(list, not, all) := spec;
    for i := 0 to |list|
      invariant all ==> forall t :: t in list[..i] ==> t in s.tags
      invariant !all ==> forall t :: t in list[..i] ==> t !in s.tags
    {
      var tag := list[i];
      var found := false;
      for j := 0 to |s.tags|
        invariant !found && tag !in s.tags[..j]
      {
        if s.tags[j] == tag {
          found := true;
          break;
        }
      }
      assert tag in list && (found <==> tag in s.tags);
      if found {
        if !all {
          return !not;
        }
      } else {
        if all {
          return not;
        }
      }
    }
    return not != all;
  }

  // ---- round trips of the textual form ----------------------------------------------------

  /** The first tag starts with a prefix character that the specification itself lacks. */
  predicate AmbiguousHead(t: TagSpec) {
    && t.list != []
    && ((HasPrefix(t.list[0], '!') && !t.not && !t.all) || (HasPrefix(t.list[0], '&') && !t.all))
  }

  predicate CleanTags(list: seq<string>) {
    forall p :: p in list ==> Trimmed(p) && ',' !in p
  }

  lemma TrimsClean(parts: seq<string>)
    requires forall p :: p in parts ==> ',' !in p
    ensures CleanTags(Trims(parts))
    ensures CleanTags(parts) ==> Trims(parts) == parts
  {
  }

  lemma JoinHead(list: seq<string>, c: char)
    requires |list| >= 1 && c != ','
    ensures HasPrefix(Join(list, ','), c) <==> HasPrefix(list[0], c)
  {
  }

  /** A printed specification reads back as itself exactly when its first tag is unambiguous. */
  lemma TagSpecRoundTrip(t: TagSpec)
    requires |t.list| >= 1 && CleanTags(t.list)
    ensures TagsOf(t.Print()) == t <==> !AmbiguousHead(t)
  {
    var names := Join(t.list, ',');
    JoinHead(t.list, '!');
    JoinHead(t.list, '&');
    SplitJoin(t.list, ',');
    TrimsClean(t.list);
    if t.not && t.all {
      assert t.Print()[1..][1..] == names;
    } else if t.not || t.all {
      assert t.Print()[1..] == names;
    } else {
      assert t.Print() == names;
    }
  }

  /** The parts of a list are the tags of another, with white space around them. */
  ghost predicate Padded(parts: seq<string>, list: seq<string>) {
    && |parts| == |list|
    && forall i :: 0 <= i < |parts| ==> PaddedTag(parts[i], list[i])
  }

  ghost predicate PaddedTag(part: string, tag: string) {
    exists u, v :: PadsTo(u, tag, v, part)
  }

  predicate PadsTo(u: string, tag: string, v: string, part: string) {
    AllSpace(u) && AllSpace(v) && part == u + tag + v
  }

  lemma PaddedTrims(parts: seq<string>, list: seq<string>)
    requires Padded(parts, list) && CleanTags(list)
    ensures Trims(parts) == list
  {
    forall i | 0 <= i < |parts|
      ensures TrimSpace(parts[i]) == list[i]
    {
      assert list[i] in list && PaddedTag(parts[i], list[i]);
      var u, v :| PadsTo(u, list[i], v, parts[i]);
      TrimPadded(u, list[i], v);
    }
  }

  /** Printed parts, trimmed or not, come apart again when the first one is unambiguous. */
  lemma PartsRead(t: TagSpec)
    requires |t.list| >= 1 && !AmbiguousHead(t) && forall p :: p in t.list ==> ',' !in p
    ensures TagsOf(t.Print()) == t.(list := Trims(t.list))
  {
    var names := Join(t.list, ',');
    JoinHead(t.list, '!');
    JoinHead(t.list, '&');
    SplitJoin(t.list, ',');
    if t.not && t.all {
      assert t.Print()[1..][1..] == names;
    } else if t.not || t.all {
      assert t.Print()[1..] == names;
    } else {
      assert t.Print() == names;
    }
  }

  /** White space around the tags does not matter, as long as the first part is unambiguous as it stands. */
  lemma PaddedTagsRead(t: TagSpec, parts: seq<string>)
    requires |t.list| >= 1 && CleanTags(t.list) && Padded(parts, t.list)
    requires !AmbiguousHead(t.(list := parts))
    ensures TagsOf(t.(list := parts).Print()) == t
  {
    forall p | p in parts
      ensures ',' !in p
    {
      var i :| 0 <= i < |parts| && parts[i] == p;
      assert t.list[i] in t.list && PaddedTag(p, t.list[i]);
      var u, v :| PadsTo(u, t.list[i], v, p);
    }
    PaddedTrims(parts, t.list);
    PartsRead(t.(list := parts));
  }

  /** What tagList yields survives the comma join that the query is built from. */
  lemma TagsSurviveJoin(tags: string)
    ensures CleanTags(TagsOf(tags).list)
    ensures Split(Join(TagsOf(tags).list, ','), ',') == TagsOf(tags).list
  {
    var list := TagsOf(tags).list;
    var rest := if HasPrefix(tags, '!') then tags[1..] else tags;
    var names := if HasPrefix(rest, '&') then rest[1..] else rest;
    TrimsClean(Split(names, ','));
    SplitJoin(list, ',');
  }

  // ---- the query --------------------------------------------------------------------------

  datatype Query = Query(tags: string, tagsAny: string, notTags: string, notTagsAny: string)

  class ListOpts {
    var Tags: string
    var TagsAny: string
    var NotTags: string
    var NotTagsAny: string

    constructor ()
      ensures AsQuery() == Query("", "", "", "")
    {
      Tags, TagsAny, NotTags, NotTagsAny := "", "", "", "";
    }

    function AsQuery(): Query
      reads this
    {
      Query(Tags, TagsAny, NotTags, NotTagsAny)
    }
  }

  datatype SubnetSpec = SubnetSpec(subnetID: string, subnet: string, subnetTags: string) {
    predicate MatcherConfigured() {
      subnetID == "" && (subnet != "" || subnetTags != "")
    }
  }

  function Tweaked(subnetTags: string, q: Query): Query {
    if subnetTags == "" then q
    else
      var TagSpec(list, not, all) := TagsOf(subnetTags);
      var text := Join(list, ',');
      if all then
        if not then q.(notTagsAny := text) else q.(tags := text)
      else
        if not then q.(notTags := text) else q.(tagsAny := text)
  }

  method TweakListOpts(s: SubnetSpec, opts: ListOpts)
    modifies opts
    ensures opts.AsQuery() == Tweaked(s.subnetTags, old(opts.AsQuery()))
  {
    if s.subnetTags != "" {
      var list, not, all := TagList(s.subnetTags);
      var tags := Join(list[..], ',');
      if all {
        if not {
          opts.NotTagsAny := tags;
        } else {
          opts.Tags := tags;
        }
      } else {
        if not {
          opts.NotTags := tags;
        } else {
          opts.TagsAny := tags;
        }
      }
    }
  }

  /**
    How the server takes the two negated options: as the comments in the source say, or as the
    Neutron API documents them (not-tags excludes resources with all tags, not-tags-any those with any).
   */
  datatype Reading = AsCommented | AsNeutron

  /** An empty option is not sent, so it filters nothing. */
  ghost predicate ServerAccepts(reading: Reading, q: Query, s: Subnet) {
    && (q.tags == "" || Listed(q.tags).Every(s.tags))
    && (q.tagsAny == "" || Listed(q.tagsAny).Any(s.tags))
    && (q.notTags == "" ||
        if reading.AsNeutron? then !Listed(q.notTags).Every(s.tags) else !Listed(q.notTags).Any(s.tags))
    && (q.notTagsAny == "" ||
        if reading.AsNeutron? then !Listed(q.notTagsAny).Any(s.tags) else !Listed(q.notTagsAny).Every(s.tags))
  }

  ghost function Listed(text: string): TagSpec {
    TagSpec(Split(text, ','), false, false)
  }

  ghost function QueryFor(subnetTags: string): Query {
    Tweaked(subnetTags, Query("", "", "", ""))
  }

  ghost predicate OneTagOnly(list: seq<string>) {
    forall s, t :: s in list && t in list ==> s == t
  }

  /** When the server-side filter means what the local one means. */
  ghost predicate PushDownSafe(reading: Reading, subnetTags: string) {
    || subnetTags == ""
    || (var t := TagsOf(subnetTags);
        && t.list != [""]
        && (reading.AsNeutron? && t.not ==> OneTagOnly(t.list)))
  }

  lemma JoinEmpty(list: seq<string>)
    requires |list| >= 1
    ensures Join(list, ',') == "" <==> list == [""]
  {
  }

  lemma ServerSide(reading: Reading, subnetTags: string, s: Subnet)
    requires subnetTags != ""
    ensures var t := TagsOf(subnetTags);
            ServerAccepts(reading, QueryFor(subnetTags), s) <==>
            (t.list == [""] ||
             if !t.not then t.Selects(s.tags)
             else if t.all == reading.AsCommented? then !t.Every(s.tags) else !t.Any(s.tags))
  {
    var t := TagsOf(subnetTags);
    TagsSurviveJoin(subnetTags);
    JoinEmpty(t.list);
    var l := Listed(Join(t.list, ','));
    assert l.Every(s.tags) == t.Every(s.tags) && l.Any(s.tags) == t.Any(s.tags);
  }

  /** The pushed-down tags accept the same subnets as the local matcher exactly when it is safe. */
  lemma PushDownIff(reading: Reading, subnetTags: string)
    requires subnetTags != ""
    ensures (forall s: Subnet ::
               ServerAccepts(reading, QueryFor(subnetTags), s) <==> TagsOf(subnetTags).Selects(s.tags))
            <==> PushDownSafe(reading, subnetTags)
  {
    var t := TagsOf(subnetTags);
    if PushDownSafe(reading, subnetTags) {
      forall s: Subnet
        ensures ServerAccepts(reading, QueryFor(subnetTags), s) <==> t.Selects(s.tags)
      {
        ServerSide(reading, subnetTags, s);
        if reading.AsNeutron? && t.not {
          assert t.list[0] in t.list;
        }
      }
    } else {
      var sub := PushDownWitness(reading, subnetTags, "");
    }
  }

  /** Under any name there is a subnet that the two filters judge differently. */
  lemma PushDownWitness(reading: Reading, subnetTags: string, name: string) returns (s: Subnet)
    requires !PushDownSafe(reading, subnetTags)
    ensures s.name == name
    ensures ServerAccepts(reading, QueryFor(subnetTags), s) != TagsOf(subnetTags).Selects(s.tags)
  {
    var t := TagsOf(subnetTags);
    if t.list == [""] {
      s := Subnet("", name, if t.not then [""] else []);
      assert "" in t.list;
    } else {
      var x, y :| x in t.list && y in t.list && x != y;
      s := Subnet("", name, [x]);
      assert y !in s.tags && x in s.tags;
    }
    ServerSide(reading, subnetTags, s);
  }

  // ---- matchers and listing ---------------------------------------------------------------

  /** How a pattern compiles to a test of names; glob and regular expressions stay uninterpreted. */
  type NamePatterns = string -> Option<string -> bool>

  ghost function Filter(list: seq<Subnet>, f: Subnet -> bool): (r: seq<Subnet>)
    ensures forall s :: s in r ==> s in list && f(s)
  {
    if list == [] then []
    else if f(list[0]) then [list[0]] + Filter(list[1..], f)
    else Filter(list[1..], f)
  }

  lemma {:induction false} FilterSplit(a: seq<Subnet>, b: seq<Subnet>, f: Subnet -> bool)
    ensures Filter(a + b, f) == Filter(a, f) + Filter(b, f)
  {
    if a == [] {
      assert a + b == b;
    } else {
      assert (a + b)[1..] == a[1..] + b;
      FilterSplit(a[1..], b, f);
    }
  }

  /** Filtering twice is filtering once by both, in the same order. */
  lemma {:induction false} FilterTwice(list: seq<Subnet>, f: Subnet -> bool, g: Subnet -> bool, both: Subnet -> bool)
    requires forall s :: both(s) <==> f(s) && g(s)
    ensures Filter(Filter(list, f), g) == Filter(list, both)
  {
    if list != [] {
      FilterTwice(list[1..], f, g, both);
      if f(list[0]) {
        assert Filter(list, f)[1..] == Filter(list[1..], f);
      }
    }
  }

  datatype ListError = BadPattern | ListFailed | NoSubnets

  function AndMatcher(a: Option<Matcher>, b: Option<Matcher>): Option<Matcher> {
    if a == None then b
    else if b == None then a
    else Some((s: Subnet) => a.value(s) && b.value(s))
  }

  function NameMatcher(matches: string -> bool): Matcher {
    (s: Subnet) => matches(s.name)
  }

  /** The matcher of a specification, with or without its tags; none if nothing is to be matched. */
  function MatcherOf(s: SubnetSpec, names: NamePatterns, tag: bool): Result<Option<Matcher>, ListError> {
    if !s.MatcherConfigured() then Ok(None)
    else if s.subnet != "" && names(s.subnet) == None then Err(BadPattern)
    else
      var byName := if s.subnet != "" then Some(NameMatcher(names(s.subnet).value)) else None;
      var match' := if tag && s.subnetTags != ""
                    then AndMatcher(byName, Some((sub: Subnet) => TagsOf(s.subnetTags).Selects(sub.tags)))
                    else byName;
      if match' == None then Ok(Some((sub: Subnet) => true)) else Ok(match')
  }

  /** A subnet matches when its name passes the pattern, if there is one, and its tags are selected, if asked for. */
  lemma MatcherMeans(s: SubnetSpec, names: NamePatterns, tag: bool, sub: Subnet)
    requires s.subnetID == "" && (s.subnet != "" ==> names(s.subnet).Some?)
    ensures MatcherOf(s, names, tag).Ok?
    ensures Decide(MatcherOf(s, names, tag).value)(sub) <==>
            && (s.subnet != "" ==> names(s.subnet).value(sub.name))
            && (tag && s.subnetTags != "" ==> TagsOf(s.subnetTags).Selects(sub.tags))
  {
  }

  function Decide(m: Option<Matcher>): Matcher {
    if m == None then (s: Subnet) => true else m.value
  }

  ghost function Accepts(reading: Reading, q: Query): Subnet -> bool {
    sub => ServerAccepts(reading, q, sub)
  }

  /** Filtering all subnets locally, tags included. */
  ghost function LocalFilter(s: SubnetSpec, names: NamePatterns, everything: seq<Subnet>): seq<Subnet>
    requires MatcherOf(s, names, true).Ok?
  {
    Filter(everything, Decide(MatcherOf(s, names, true).value))
  }

  /** Filtering by tags on the server, then by name locally. */
  ghost function ServerFirst(s: SubnetSpec, names: NamePatterns, reading: Reading, everything: seq<Subnet>): seq<Subnet>
    requires MatcherOf(s, names, false).Ok?
  {
    Filter(Filter(everything, Accepts(reading, QueryFor(s.subnetTags))), Decide(MatcherOf(s, names, false).value))
  }

  /**
    ListSubnetsForNetwork. `served` is the server's answer to the tweaked query over all subnets of the
    network, or an error. With a safe push-down the result is what filtering everything locally would
    give, in the same order, and an empty answer means that this would give nothing. A specification
    with a subnet ID is not matched locally at all, only its tags are pushed down.
   */
  method ListSubnetsForNetwork(s: SubnetSpec, names: NamePatterns, ghost reading: Reading,
                               ghost everything: seq<Subnet>, served: Result<seq<Subnet>, ()>)
    returns (r: Result<seq<Subnet>, ListError>)
    requires served.Ok? ==> served.value == Filter(everything, Accepts(reading, QueryFor(s.subnetTags)))
    ensures r == Err(BadPattern) <==> s.subnetID == "" && s.subnet != "" && names(s.subnet) == None
    ensures r == Err(ListFailed) <==> r != Err(BadPattern) && served.Err?
    ensures r == Err(NoSubnets) <==> r != Err(BadPattern) && served == Ok([])
    ensures s.subnetID == "" && PushDownSafe(reading, s.subnetTags) && r.Ok? ==>
              r.value == LocalFilter(s, names, everything)
    ensures s.subnetID == "" && PushDownSafe(reading, s.subnetTags) && r == Err(NoSubnets) ==>
              LocalFilter(s, names, everything) == []
    ensures s.subnetID != "" && r.Ok? ==> r.value == Filter(everything, Accepts(reading, QueryFor(s.subnetTags)))
  {
    var match' := MatcherOf(s, names, false);
    if match'.Err? {
      return Err(BadPattern);
    }
    if served.Err? {
      return Err(ListFailed);
    }
    var list := served.value;
    ghost var local := Decide(match'.value);
    if s.subnetID == "" && PushDownSafe(reading, s.subnetTags) {
      PushDownPreserves(s, names, reading, everything);
    }
    if list == [] {
      return Err(NoSubnets);
    }
    if match'.value == None {
      FilterAll(list, local);
      return Ok(list);
    }
    var foundSubnets := FilterLocally(list, match'.value.value);
    return Ok(foundSubnets);
  }

  /** The loop that keeps the matching subnets, in their order. */
  method FilterLocally(list: seq<Subnet>, matches: Matcher) returns (foundSubnets: seq<Subnet>)
    ensures foundSubnets == Filter(list, matches)
  {
    foundSubnets := [];
    for i := 0 to |list|
      invariant foundSubnets == Filter(list[..i], matches)
    {
      assert list[..i + 1] == list[..i] + [list[i]];
      FilterSplit(list[..i], [list[i]], matches);
      if matches(list[i]) {
        foundSubnets := foundSubnets + [list[i]];
      }
    }
    assert list[..|list|] == list;
  }

  lemma {:induction false} FilterAll(list: seq<Subnet>, f: Subnet -> bool)
    requires forall s :: f(s)
    ensures Filter(list, f) == list
  {
    if list != [] {
      FilterAll(list[1..], f);
    }
  }

  /** Server filter first, name matcher second: together they are the whole specification. */
  lemma PushDownPreserves(s: SubnetSpec, names: NamePatterns, reading: Reading, everything: seq<Subnet>)
    requires s.subnetID == "" && PushDownSafe(reading, s.subnetTags)
    requires MatcherOf(s, names, false).Ok?
    ensures MatcherOf(s, names, true).Ok?
    ensures ServerFirst(s, names, reading, everything) == LocalFilter(s, names, everything)
  {
    var accepts := Accepts(reading, QueryFor(s.subnetTags));
    var local, full := Decide(MatcherOf(s, names, false).value), Decide(MatcherOf(s, names, true).value);
    forall sub
      ensures full(sub) <==> accepts(sub) && local(sub)
    {
      if s.subnetTags != "" {
        PushDownIff(reading, s.subnetTags);
        assert ServerAccepts(reading, QueryFor(s.subnetTags), sub) <==> TagsOf(s.subnetTags).Selects(sub.tags);
      }
    }
    FilterTwice(everything, accepts, local, full);
  }

  /** Some name passes the name pattern; without a pattern every name does. */
  ghost predicate SomeNamePasses(s: SubnetSpec, names: NamePatterns) {
    s.subnet == "" || (names(s.subnet).Some? && exists n :: names(s.subnet).value(n))
  }

  /** Where the push-down is unsafe and a name passes, a single subnet tells the two filters apart. */
  lemma UnsafePushDownDiffers(s: SubnetSpec, names: NamePatterns, reading: Reading) returns (everything: seq<Subnet>)
    requires s.subnetID == "" && MatcherOf(s, names, false).Ok?
    requires !PushDownSafe(reading, s.subnetTags) && SomeNamePasses(s, names)
    ensures ServerFirst(s, names, reading, everything) != LocalFilter(s, names, everything)
  {
    var name := "";
    if s.subnet != "" {
      name :| names(s.subnet).value(name);
    }
    var sub := PushDownWitness(reading, s.subnetTags, name);
    everything := [sub];
    var local, full := Decide(MatcherOf(s, names, false).value), Decide(MatcherOf(s, names, true).value);
    assert local(sub) && full(sub) == TagsOf(s.subnetTags).Selects(sub.tags);
    FilterOne(sub, Accepts(reading, QueryFor(s.subnetTags)));
    FilterOne(sub, local);
    FilterOne(sub, full);
  }

  lemma FilterOne(s: Subnet, f: Subnet -> bool)
    ensures Filter([s], f) == if f(s) then [s] else []
  {
    assert [s][1..] == [];
  }

  lemma {:induction false} FilterNone(list: seq<Subnet>, f: Subnet -> bool)
    requires forall s :: !f(s)
    ensures Filter(list, f) == []
  {
    if list != [] {
      FilterNone(list[1..], f);
    }
  }

  /** For all lists of subnets the two ways of filtering agree exactly when the push-down is safe, or no name passes. */
  lemma PushDownExact(s: SubnetSpec, names: NamePatterns, reading: Reading)
    requires s.subnetID == "" && MatcherOf(s, names, false).Ok?
    ensures (forall everything ::
               ServerFirst(s, names, reading, everything) == LocalFilter(s, names, everything))
            <==> PushDownSafe(reading, s.subnetTags) || !SomeNamePasses(s, names)
  {
    if PushDownSafe(reading, s.subnetTags) {
      forall everything
        ensures ServerFirst(s, names, reading, everything) == LocalFilter(s, names, everything)
      {
        PushDownPreserves(s, names, reading, everything);
      }
    } else if SomeNamePasses(s, names) {
      var everything := UnsafePushDownDiffers(s, names, reading);
    } else {
      var local, full := Decide(MatcherOf(s, names, false).value), Decide(MatcherOf(s, names, true).value);
      forall sub
        ensures !local(sub) && !full(sub)
      {
        assert !names(s.subnet).value(sub.name);
      }
      forall everything
        ensures ServerFirst(s, names, reading, everything) == LocalFilter(s, names, everything)
      {
        FilterNone(Filter(everything, Accepts(reading, QueryFor(s.subnetTags))), local);
        FilterNone(everything, full);
      }
    }
  }
}
