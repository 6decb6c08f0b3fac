// The set of IPv4 blocks that may reach a load balancer (pkg/helper/ipnet.go, pkg/helper/config.go).
module IpSet {
  import opened Text
  import opened Cidr

  const DEFAULT_SOURCE_RANGE := "0.0.0.0/0"

  // ---- specification: canonical maps ------------------------------------------------------

  /** Every key is the printed form of the block it leads to. */
  ghost predicate Canonical(m: map<string, Block>) {
    forall k :: k in m ==> m[k].Valid() && m[k].Print() == k
  }

  ghost predicate AllMasked(blocks: set<Block>) {
    forall b :: b in blocks ==> b.Masked()
  }

  /** The networks a list of specifications denotes. */
  ghost function NetworksOf(specs: set<string>): set<Block> {
    set s | s in specs && Written(s).Some? :: Written(s).value.Network()
  }

  /** Addresses admitted by a list of textual specifications. */
  ghost predicate ListAdmits(specs: set<string>, a: nat) {
    exists s :: s in specs && SpecAdmits(s, a)
  }

  ghost predicate BlocksAdmit(blocks: set<Block>, a: nat) {
    exists b :: b in blocks && b.prefix <= 32 && b.Admits(a)
  }

  /** A canonical map holds a block exactly when it holds the block's printed form. */
  lemma ValuesByKey(m: map<string, Block>)
    requires Canonical(m)
    ensures forall b: Block :: b in m.Values <==> b.Valid() && b.Print() in m
  {
    forall b: Block
      ensures b in m.Values <==> b.Valid() && b.Print() in m
    {
      if b.Valid() && b.Print() in m {
        PrintInjective(b, m[b.Print()]);
      }
    }
  }

  lemma StoreBlock(m: map<string, Block>, item: Block)
    requires Canonical(m) && item.Valid()
    ensures Canonical(m[item.Print() := item]) && m[item.Print() := item].Values == m.Values + {item}
  {
    var n := m[item.Print() := item];
    ValuesByKey(m);
    ValuesByKey(n);
    forall b: Block
      ensures b in n.Values <==> b in m.Values + {item}
    {
      if b.Valid() && b.Print() == item.Print() {
        PrintInjective(b, item);
      }
    }
  }

  lemma DropBlock(m: map<string, Block>, item: Block)
    requires Canonical(m) && item.Valid()
    ensures Canonical(m - {item.Print()}) && (m - {item.Print()}).Values == m.Values - {item}
  {
    var n := m - {item.Print()};
    ValuesByKey(m);
    ValuesByKey(n);
    forall b: Block
      ensures b in n.Values <==> b in m.Values - {item}
    {
      if b.Valid() && b.Print() == item.Print() {
        PrintInjective(b, item);
      }
    }
  }

  lemma DifferenceBlocks(m: map<string, Block>, n: map<string, Block>, d: map<string, Block>)
    requires Canonical(m) && Canonical(n) && d.Keys == m.Keys - n.Keys
    requires forall k :: k in d ==> d[k] == m[k]
    ensures Canonical(d) && d.Values == m.Values - n.Values
  {
    ValuesByKey(m);
    ValuesByKey(n);
    ValuesByKey(d);
  }

  /** Union over the stored networks is union over the specifications they came from. */
  lemma NetworksAdmitSame(specs: set<string>, a: nat)
    ensures BlocksAdmit(NetworksOf(specs), a) <==> ListAdmits(specs, a)
  {
    if BlocksAdmit(NetworksOf(specs), a) {
      var b :| b in NetworksOf(specs) && b.prefix <= 32 && b.Admits(a);
      var s :| s in specs && Written(s).Some? && Written(s).value.Network() == b;
      NetworkAdmitsSame(Written(s).value);
      assert SpecAdmits(s, a);
    }
    if ListAdmits(specs, a) {
      var s :| s in specs && SpecAdmits(s, a);
      NetworkAdmitsSame(Written(s).value);
      assert Written(s).value.Network() in NetworksOf(specs);
    }
  }

  lemma PrintTrimmed(b: Block)
    requires b.Valid()
    ensures Trimmed(b.Print()) && Written(b.Print()) == Some(b)
  {
    var q := Quad(b.addr);
    ValueDecimal(Octets(b.addr)[0]);
    ValueDecimal(b.prefix);
    JoinFour(q[0], q[1], q[2], q[3]);
    assert b.Print()[0] == q[0][0];
    assert b.Print()[|b.Print()| - 1] == Decimal(b.prefix)[|Decimal(b.prefix)| - 1];
    PrintRoundTrip(b);
  }

  /** White space around a printed block does not matter. */
  lemma WrittenPadded(u: string, b: Block, v: string)
    requires b.Valid() && AllSpace(u) && AllSpace(v)
    ensures Written(u + b.Print() + v) == Some(b)
  {
    PrintTrimmed(b);
    TrimPadded(u, b.Print(), v);
  }

  /** White space, the dotted quad, a slash and the digits of the prefix length, and white space. */
  ghost predicate SpecOf(spec: string, u: string, b: Block, digits: string, v: string) {
    && b.Valid() && AllSpace(u) && AllSpace(v) && Digits(digits) && Value(digits) == b.prefix
    && spec == u + (Join(Quad(b.addr), '.') + ['/'] + digits) + v
  }

  lemma WrittenTrimmed(b: Block, digits: string)
    requires b.Valid() && Digits(digits)
    ensures Trimmed(Join(Quad(b.addr), '.') + ['/'] + digits)
  {
    var q := Quad(b.addr);
    ValueDecimal(Octets(b.addr)[0]);
    JoinFour(q[0], q[1], q[2], q[3]);
    var text := Join(q, '.') + ['/'] + digits;
    assert text[0] == q[0][0] && text[|text| - 1] == digits[|digits| - 1];
  }

  /** Exactly these specifications are accepted, and as this block. */
  lemma WrittenExactly(spec: string, b: Block)
    ensures Written(spec) == Some(b) <==> exists u, digits, v :: SpecOf(spec, u, b, digits, v)
  {
    ParsesExactly(TrimSpace(spec), b);
    if Written(spec) == Some(b) {
      var digits :| && Digits(digits) && Value(digits) == b.prefix
                    && TrimSpace(spec) == Join(Quad(b.addr), '.') + ['/'] + digits;
      var i, j := TrimIsSlice(spec);
      assert spec == spec[..i] + spec[i..j] + spec[j..];
      assert SpecOf(spec, spec[..i], b, digits, spec[j..]);
    }
    if exists u, digits, v :: SpecOf(spec, u, b, digits, v) {
      var u, digits, v :| SpecOf(spec, u, b, digits, v);
      WrittenTrimmed(b, digits);
      TrimPadded(u, Join(Quad(b.addr), '.') + ['/'] + digits, v);
    }
  }

  lemma KeysParse(m: map<string, Block>)
    requires Canonical(m)
    ensures forall k :: k in m ==> Written(k) == Some(m[k])
    ensures forall b: Block :: b in NetworksOf(m.Keys) <==> exists k :: k in m && b == m[k].Network()
  {
    forall k | k in m
      ensures Written(k) == Some(m[k])
    {
      PrintTrimmed(m[k]);
    }
  }

  /**
    However the keys of a set are listed, they all parse again; parsing them gives back the same
    set exactly when no stored block carries host bits.
   */
  lemma RoundTripIffMasked(m: map<string, Block>, listed: seq<string>)
    requires Canonical(m) && Elems(listed) == m.Keys
    ensures forall k :: k in listed ==> Written(k) == Some(m[k])
    ensures NetworksOf(Elems(listed)) == m.Values <==> AllMasked(m.Values)
  {
    KeysParse(m);
    forall k | k in listed
      ensures k in m
    {
      assert k in Elems(listed);
    }
    if AllMasked(m.Values) {
      forall b: Block
        ensures b in NetworksOf(m.Keys) <==> b in m.Values
      {
        if b in NetworksOf(m.Keys) {
          var k :| k in m && b == m[k].Network();
          assert m[k] in m.Values;
        }
      }
    } else {
      var b :| b in m.Values && !b.Masked();
      if b in NetworksOf(m.Keys) {
        var k :| k in m && b == m[k].Network();
        NetworkAdmitsSame(m[k]);
      }
    }
  }

  lemma UnmaskedPrint(b: Block)
    requires b == Block(1, 31)
    ensures b.Valid() && b.Print() == "0.0.0.1/31"
  {
    JoinFour("0", "0", "0", "1");
    assert Decimal(31) == "31";
    assert Quad(1) == ["0", "0", "0", "1"];
  }

  /** Inserting a block that carries host bits breaks the round trip: 0.0.0.1/31 comes back as 0.0.0.0/31. */
  lemma UnmaskedBreaksRoundTrip() returns (b: Block)
    ensures b.Valid() && b.Print() == "0.0.0.1/31"
    ensures NetworksOf({b.Print()}) == {Block(0, 31)} != {b}
  {
    b := Block(1, 31);
    UnmaskedPrint(b);
    PrintTrimmed(b);
    assert b.Network() == Block(0, 31);
  }

  lemma DefaultAdmitsAll(a: nat)
    requires a < ADDRESSES
    ensures SpecAdmits(DEFAULT_SOURCE_RANGE, a)
  {
    var b := Block(0, 0);
    JoinFour("0", "0", "0", "0");
    assert b.Print() == DEFAULT_SOURCE_RANGE;
    PrintTrimmed(b);
    assert ClearLow(0, 32) == 0;
    IntervalOf(b);
    Pow2Of32();
  }

  // ---- the set ----------------------------------------------------------------------------

  class IPNet {
    var nets: map<string, Block>

    ghost predicate Valid()
      reads this
    {
      Canonical(nets)
    }

    ghost function Blocks(): set<Block>
      reads this
    {
      nets.Values
    }

    constructor ()
      ensures Valid() && nets == map[]
    {
      nets := map[];
    }

    method Insert(items: seq<Block>)
      requires Valid() && forall b :: b in items ==> b.Valid()
      modifies this
      ensures Valid() && Blocks() == old(Blocks()) + Elems(items)
    {
      for i := 0 to |items|
        invariant Valid() && Blocks() == old(Blocks()) + Elems(items[..i])
      {
        var item := items[i];
        assert Elems(items[..i + 1]) == Elems(items[..i]) + {item};
        StoreBlock(nets, item);
        nets := nets[item.Print() := item];
      }
      assert items[..|items|] == items;
    }

    method Delete(items: seq<Block>)
      requires Valid() && forall b :: b in items ==> b.Valid()
      modifies this
      ensures Valid() && Blocks() == old(Blocks()) - Elems(items)
    {
      for i := 0 to |items|
        invariant Valid() && Blocks() == old(Blocks()) - Elems(items[..i])
      {
        var item := items[i];
        assert Elems(items[..i + 1]) == Elems(items[..i]) + {item};
        DropBlock(nets, item);
        nets := nets - {item.Print()};
      }
      assert items[..|items|] == items;
    }

    predicate Has(item: Block)
      requires item.Valid()
      reads this
    {
      item.Print() in nets
    }

    method HasAll(items: seq<Block>) returns (all: bool)
      requires Valid() && forall b :: b in items ==> b.Valid()
      ensures all <==> Elems(items) <= Blocks()
    {
      ValuesByKey(nets);
      for i := 0 to |items|
        invariant Elems(items[..i]) <= Blocks()
      {
        assert items[i] in Elems(items);
        if !Has(items[i]) {
          return false;
        }
        assert Elems(items[..i + 1]) == Elems(items[..i]) + {items[i]};
      }
      assert items[..|items|] == items;
      return true;
    }

    method Difference(s2: IPNet) returns (result: IPNet)
      requires Valid() && s2.Valid()
      ensures fresh(result) && result.Valid()
      ensures result.Blocks() == Blocks() - s2.Blocks()
    {
      result := new IPNet();
      var todo := nets.Keys;
      while todo != {}
        invariant todo <= nets.Keys
        invariant fresh(result)
        invariant result.nets.Keys == nets.Keys - todo - s2.nets.Keys
        invariant forall k :: k in result.nets ==> result.nets[k] == nets[k]
        decreases todo
      {
        var k :| k in todo;
        todo := todo - {k};
        if k !in s2.nets {
          result.nets := result.nets[k := nets[k]];
        }
      }
      DifferenceBlocks(nets, s2.nets, result.nets);
    }

    method StringSlice() returns (a: seq<string>)
      ensures |a| == |nets| && Elems(a) == nets.Keys
      ensures forall i, j :: 0 <= i < j < |a| ==> a[i] != a[j]
    {
      a := [];
      var todo := nets.Keys;
      while todo != {}
        invariant todo <= nets.Keys && Elems(a) == nets.Keys - todo
        invariant |a| + |todo| == |nets|
        invariant forall i, j :: 0 <= i < j < |a| ==> a[i] != a[j]
        decreases todo
      {
        var k :| k in todo;
        assert forall i :: 0 <= i < |a| ==> a[i] in Elems(a);
        todo := todo - {k};
        assert Elems(a + [k]) == Elems(a) + {k};
        a := a + [k];
      }
    }

    method IsSuperset(s2: IPNet) returns (all: bool)
      requires Valid() && s2.Valid()
      ensures all <==> s2.nets.Keys <= nets.Keys
      ensures all <==> s2.Blocks() <= Blocks()
    {
      ValuesByKey(nets);
      ValuesByKey(s2.nets);
      var todo := s2.nets.Keys;
      while todo != {}
        invariant todo <= s2.nets.Keys && s2.nets.Keys - todo <= nets.Keys
        decreases todo
      {
        var k :| k in todo;
        if k !in nets {
          assert s2.nets[k] in s2.Blocks() && s2.nets[k] !in Blocks();
          return false;
        }
        todo := todo - {k};
      }
      return true;
    }

    method Equal(s2: IPNet) returns (same: bool)
      requires Valid() && s2.Valid()
      ensures same <==> s2.nets == nets
      ensures same <==> s2.Blocks() == Blocks()
    {
      var all := IsSuperset(s2);
      same := Len() == s2.Len() && all;
      ValuesByKey(nets);
      ValuesByKey(s2.nets);
      if s2.Blocks() == Blocks() {
        forall k | k in nets
          ensures k in s2.nets
        {
          assert nets[k] in s2.Blocks();
        }
        assert s2.nets.Keys == nets.Keys;
      }
      if same {
        SubsetOfSameSize(s2.nets.Keys, nets.Keys);
        forall k | k in nets
          ensures s2.nets[k] == nets[k]
        {
          PrintInjective(nets[k], s2.nets[k]);
        }
      }
    }

    function Len(): nat
      reads this
    {
      |nets|
    }
  }

  /** Membership by printed form is membership of the block itself. */
  lemma HasIsMembership(s: IPNet, item: Block)
    requires s.Valid() && item.Valid()
    ensures s.Has(item) <==> item in s.Blocks()
  {
    ValuesByKey(s.nets);
  }

  lemma SubsetOfSameSize<T>(a: set<T>, b: set<T>)
    requires a <= b && |a| == |b|
    ensures a == b
  {
    assert |b - a| == |b| - |a|;
  }

  // ---- parsing ----------------------------------------------------------------------------

  /** Each specification is found under its key, and every key stems from a specification. */
  ghost predicate StoredByKey(m: map<string, Block>, specs: seq<string>) {
    && (forall s :: s in specs ==> Written(s).Some? && KeyOf(s) in m && m[KeyOf(s)] == Written(s).value.Network())
    && (forall k :: k in m ==> exists s :: s in specs && Written(s).Some? && KeyOf(s) == k)
  }

  lemma NetworksExtend(specs: seq<string>, i: nat)
    requires i < |specs| && Written(specs[i]).Some?
    ensures Written(specs[i]).value.Network().Masked()
    ensures NetworksOf(Elems(specs[..i + 1])) == NetworksOf(Elems(specs[..i])) + {Written(specs[i]).value.Network()}
  {
    NetworkAdmitsSame(Written(specs[i]).value);
    assert Elems(specs[..i + 1]) == Elems(specs[..i]) + {specs[i]};
  }

  lemma NetworksStored(m: map<string, Block>, specs: seq<string>)
    requires Canonical(m) && m.Values == NetworksOf(Elems(specs))
    requires forall s :: s in specs ==> Written(s).Some?
    ensures StoredByKey(m, specs)
  {
    ValuesByKey(m);
    forall s | s in specs
      ensures KeyOf(s) in m && m[KeyOf(s)] == Written(s).value.Network()
    {
      var b := Written(s).value.Network();
      assert s in Elems(specs) && b in NetworksOf(Elems(specs));
      NetworkAdmitsSame(Written(s).value);
      PrintInjective(b, m[b.Print()]);
    }
    forall k | k in m
      ensures exists s :: s in specs && Written(s).Some? && KeyOf(s) == k
    {
      assert m[k] in NetworksOf(Elems(specs));
      var s :| s in Elems(specs) && Written(s).Some? && Written(s).value.Network() == m[k];
      assert s in specs && KeyOf(s) == k;
    }
  }

  /** Fails on the first specification that is not a block, else collects all their networks. */
  method ParseIPNets(specs: seq<string>) returns (r: Result<IPNet, string>)
    ensures r.Ok? <==> forall s :: s in specs ==> Written(s).Some?
    ensures r.Ok? ==> fresh(r.value) && r.value.Valid() && r.value.Blocks() == NetworksOf(Elems(specs))
    ensures r.Ok? ==> AllMasked(r.value.Blocks())
    ensures r.Ok? ==> StoredByKey(r.value.nets, specs)
    ensures r.Err? ==> r.error in specs && Written(r.error) == None
  {
    var ipnetset := new IPNet();
    for i := 0 to |specs|
      invariant fresh(ipnetset) && ipnetset.Valid()
      invariant ipnetset.Blocks() == NetworksOf(Elems(specs[..i]))
      invariant AllMasked(ipnetset.Blocks())
      invariant forall s :: s in specs[..i] ==> Written(s).Some?
    {
      var spec := specs[i];
      var ipnet := ParseCIDR(TrimSpace(spec));
      if ipnet == None {
        assert spec in specs && Written(spec) == None;
        return Err(spec);
      }
      NetworksExtend(specs, i);
      StoreBlock(ipnetset.nets, ipnet.value);
      ipnetset.nets := ipnetset.nets[ipnet.value.Print() := ipnet.value];
    }
    assert specs[..|specs|] == specs;
    NetworksStored(ipnetset.nets, specs);
    return Ok(ipnetset);
  }

  /** Listing a set and parsing the list always works, and gives an equal set exactly when all blocks are masked. */
  method Reparse(s: IPNet) returns (r: Result<IPNet, string>, same: bool)
    requires s.Valid()
    ensures r.Ok? && fresh(r.value) && r.value.Valid()
    ensures same <==> r.value.nets == s.nets
    ensures same <==> AllMasked(s.Blocks())
  {
    var listed := s.StringSlice();
    RoundTripIffMasked(s.nets, listed);
    r := ParseIPNets(listed);
    same := r.value.Equal(s);
  }

  // ---- source ranges ----------------------------------------------------------------------

  /** Which addresses the shoot owner asked for: the listed ones and the workers, or everybody. */
  ghost predicate Wanted(allowed: Option<seq<string>>, workers: string, a: nat) {
    match allowed
    case None => a < ADDRESSES
    case Some(cidrs) => ListAdmits(Elems(cidrs + [workers]), a)
  }

  ghost function Requested(allowed: Option<seq<string>>, workers: string): set<string> {
    match allowed
    case None => {DEFAULT_SOURCE_RANGE}
    case Some(cidrs) => Elems(cidrs + [workers])
  }

  lemma RequestedMeansWanted(allowed: Option<seq<string>>, workers: string, a: nat)
    ensures ListAdmits(Requested(allowed, workers), a) <==> Wanted(allowed, workers, a)
  {
    if allowed == None && a < ADDRESSES {
      DefaultAdmitsAll(a);
    }
  }

  method GetLoadBalancerSourceRanges(allowed: Option<seq<string>>, workers: string)
    returns (r: Result<IPNet, string>)
    ensures r.Ok? <==> forall s :: s in Requested(allowed, workers) ==> Written(s).Some?
    ensures r.Ok? ==> fresh(r.value) && r.value.Valid() && r.value.nets != map[]
    ensures r.Ok? ==> AllMasked(r.value.Blocks())
    ensures r.Ok? ==> forall a: nat :: BlocksAdmit(r.value.Blocks(), a) <==> Wanted(allowed, workers, a)
    ensures r.Ok? ==> forall a: nat :: ListAdmits(r.value.nets.Keys, a) <==> Wanted(allowed, workers, a)
  {
    var specs: seq<string> := [];
    if allowed.Some? {
      specs := allowed.value;
      specs := specs + [workers];
    } else {
      specs := specs + [DEFAULT_SOURCE_RANGE];
    }
    assert Elems(specs) == Requested(allowed, workers);
    r := ParseIPNets(specs);
    if r.Ok? {
      assert specs[0] in Elems(specs) && KeyOf(specs[0]) in r.value.nets.Keys;
      forall a: nat
        ensures BlocksAdmit(r.value.Blocks(), a) <==> Wanted(allowed, workers, a)
        ensures ListAdmits(r.value.nets.Keys, a) <==> Wanted(allowed, workers, a)
      {
        NetworksAdmitSame(Elems(specs), a);
        RequestedMeansWanted(allowed, workers, a);
        KeysAdmitSame(r.value.nets, a);
      }
    } else {
      assert r.error in Elems(specs);
    }
  }

  /** The textual keys admit what the stored blocks admit. */
  lemma KeysAdmitSame(m: map<string, Block>, a: nat)
    requires Canonical(m)
    ensures ListAdmits(m.Keys, a) <==> BlocksAdmit(m.Values, a)
  {
    forall k | k in m
      ensures Written(k) == Some(m[k])
    {
      PrintTrimmed(m[k]);
    }
    if BlocksAdmit(m.Values, a) {
      var b :| b in m.Values && b.prefix <= 32 && b.Admits(a);
      ValuesByKey(m);
      assert SpecAdmits(b.Print(), a);
    }
    if ListAdmits(m.Keys, a) {
      var k :| k in m.Keys && SpecAdmits(k, a);
      assert m[k] in m.Values;
    }
  }
}
