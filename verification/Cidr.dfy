// IPv4 address blocks in the prefix notation of section 3.1 of RFC 4632.
module Cidr {
  import opened Text

  const ADDRESSES: nat := 0x1_0000_0000

  function Pow2(n: nat): (r: nat)
    ensures r >= 1
  {
    if n == 0 then 1 else 2 * Pow2(n - 1)
  }

  /** The bits of `a` above its `h` low ones. */
  function High(a: nat, h: nat): nat {
    if h == 0 then a else High(a / 2, h - 1)
  }

  /** `a` with its `h` low bits set to zero. */
  function ClearLow(a: nat, h: nat): (r: nat)
    ensures r <= a
  {
    if h == 0 then a else 2 * ClearLow(a / 2, h - 1)
  }

  /** An address together with a prefix length, as written in `address/prefix`. */
  datatype Block = Block(addr: nat, prefix: nat) {

    predicate Valid() {
      addr < ADDRESSES && prefix <= 32
    }

    /** An address is admitted when it agrees with the written one on the first `prefix` bits. */
    predicate Admits(a: nat)
      requires prefix <= 32
    {
      a < ADDRESSES && High(a, 32 - prefix) == High(addr, 32 - prefix)
    }

    /** The block with its host bits cleared. */
    function Network(): Block
      requires prefix <= 32
    {
      Block(ClearLow(addr, 32 - prefix), prefix)
    }

    predicate Masked() {
      Valid() && Network() == this
    }

    function Print(): string
      requires Valid()
    {
      Join(Quad(addr), '.') + ['/'] + Decimal(prefix)
    }
  }

  // ---- dotted quads -----------------------------------------------------------------------

  function Octets(a: nat): (q: seq<nat>)
    requires a < ADDRESSES
    ensures |q| == 4 && forall i :: 0 <= i < 4 ==> q[i] < 256
    ensures FromOctets(q) == a
  {
    var b, c := a / 256, a / 256 / 256;
    [c / 256, c % 256, b % 256, a % 256]
  }

  function FromOctets(q: seq<nat>): nat
    requires |q| == 4
  {
    ((q[0] * 256 + q[1]) * 256 + q[2]) * 256 + q[3]
  }

  function Quad(a: nat): (q: seq<string>)
    requires a < ADDRESSES
    ensures |q| == 4
  {
    var o := Octets(a);
    [Decimal(o[0]), Decimal(o[1]), Decimal(o[2]), Decimal(o[3])]
  }

  /** An octet has no superfluous leading zero and fits in a byte. */
  predicate IsOctet(s: string) {
    Digits(s) && (|s| > 1 ==> s[0] != '0') && Value(s) < 256
  }

  function ParseQuad(s: string): (r: Option<nat>)
    ensures r.Some? ==> r.value < ADDRESSES
  {
    var q := Split(s, '.');
    if |q| == 4 && IsOctet(q[0]) && IsOctet(q[1]) && IsOctet(q[2]) && IsOctet(q[3]) then
      Some(FromOctets([Value(q[0]), Value(q[1]), Value(q[2]), Value(q[3])]))
    else
      None
  }

  /** The block as written, host bits included; a prefix length may carry leading zeros. */
  function ParseWritten(s: string): (r: Option<Block>)
    ensures r.Some? ==> r.value.Valid()
  {
    var parts := Split(s, '/');
    if |parts| != 2 then None
    else
      var a := ParseQuad(parts[0]);
      if a.Some? && Digits(parts[1]) && Value(parts[1]) <= 32 then
        Some(Block(a.value, Value(parts[1])))
      else
        None
  }

  /** What net.ParseCIDR returns as the network. */
  function ParseCIDR(s: string): Option<Block> {
    var w := ParseWritten(s);
    if w.Some? then Some(w.value.Network()) else None
  }

  // ---- printing and parsing are inverse ---------------------------------------------------

  lemma DecimalIsPlain(n: nat, c: char)
    requires !('0' <= c <= '9')
    ensures c !in Decimal(n)
  {
    ValueDecimal(n);
  }

  lemma OctetDecimal(n: nat)
    requires n < 256
    ensures IsOctet(Decimal(n)) && Value(Decimal(n)) == n && '.' !in Decimal(n) && '/' !in Decimal(n)
  {
    ValueDecimal(n);
    DecimalIsPlain(n, '.');
    DecimalIsPlain(n, '/');
    if n == 0 {
      assert |Decimal(0)| == 1;
    }
  }

  lemma JoinFour(a: string, b: string, c: string, d: string)
    ensures Join([a, b, c, d], '.') == a + ['.'] + (b + ['.'] + (c + ['.'] + d))
  {
    assert [a, b, c, d][1..] == [b, c, d] && [b, c, d][1..] == [c, d] && [c, d][1..] == [d];
    assert Join([c, d], '.') == c + ['.'] + d;
    assert Join([b, c, d], '.') == b + ['.'] + (c + ['.'] + d);
  }

  lemma QuadRoundTrip(a: nat)
    requires a < ADDRESSES
    ensures ParseQuad(Join(Quad(a), '.')) == Some(a)
    ensures '/' !in Join(Quad(a), '.')
  {
    var q, o := Quad(a), Octets(a);
    OctetDecimal(o[0]);
    OctetDecimal(o[1]);
    OctetDecimal(o[2]);
    OctetDecimal(o[3]);
    JoinFour(q[0], q[1], q[2], q[3]);
    assert Split(Join(q, '.'), '.') == q by { SplitJoin(q, '.'); }
    assert o == [Value(q[0]), Value(q[1]), Value(q[2]), Value(q[3])];
  }

  /** Reading a printed block gives back that very block. */
  lemma PrintRoundTrip(b: Block)
    requires b.Valid()
    ensures ParseWritten(b.Print()) == Some(b)
  {
    QuadRoundTrip(b.addr);
    ValueDecimal(b.prefix);
    DecimalIsPlain(b.prefix, '/');
    SplitPrefix(Join(Quad(b.addr), '.'), Decimal(b.prefix), '/');
    SplitPlain(Decimal(b.prefix), '/');
  }

  lemma {:induction false} DecimalValue(s: string)
    requires Digits(s) && (|s| > 1 ==> s[0] != '0')
    ensures Decimal(Value(s)) == s
  {
    var rest, last := s[..|s| - 1], (s[|s| - 1] - '0') as nat;
    assert s == rest + [s[|s| - 1]];
    assert Digit(last) == s[|s| - 1];
    if |s| > 1 {
      DecimalValue(rest);
      ValueDecimal(Value(rest));
      assert Value(rest) > 0;
      assert Value(s) / 10 == Value(rest) && Value(s) % 10 == last;
    }
  }

  lemma {:induction false} JoinSplit(s: string, sep: char)
    ensures Join(Split(s, sep), sep) == s
  {
    if s != "" {
      JoinSplit(s[1..], sep);
      var rest := Split(s[1..], sep);
      if s[0] == sep {
        assert Join([""] + rest, sep) == [sep] + Join(rest, sep) by { assert ([""] + rest)[1..] == rest; }
      } else {
        var first := [s[0]] + rest[0];
        assert ([first] + rest[1..])[1..] == rest[1..];
      }
      assert s == [s[0]] + s[1..];
    }
  }

  lemma QuadParses(s: string)
    requires ParseQuad(s).Some?
    ensures s == Join(Quad(ParseQuad(s).value), '.')
  {
    var q := Split(s, '.');
    JoinSplit(s, '.');
    DecimalValue(q[0]);
    DecimalValue(q[1]);
    DecimalValue(q[2]);
    DecimalValue(q[3]);
    var a, b, c, d := Value(q[0]), Value(q[1]), Value(q[2]), Value(q[3]);
    OctetsOf(a, b, c, d);
    assert q == [q[0], q[1], q[2], q[3]];
  }

  lemma OctetsOf(a: nat, b: nat, c: nat, d: nat)
    requires a < 256 && b < 256 && c < 256 && d < 256
    ensures FromOctets([a, b, c, d]) < ADDRESSES && Octets(FromOctets([a, b, c, d])) == [a, b, c, d]
  {
    var n := FromOctets([a, b, c, d]);
    assert n / 256 == (a * 256 + b) * 256 + c && n % 256 == d;
    assert n / 256 / 256 == a * 256 + b && n / 256 % 256 == c;
  }

  /**
    What parses, and as what: a dotted quad without superfluous zeros, a slash, and digits that make a
    prefix length of at most 32.
   */
  lemma ParsesExactly(s: string, b: Block)
    ensures ParseWritten(s) == Some(b) <==>
            b.Valid() && exists d :: Digits(d) && Value(d) == b.prefix && s == Join(Quad(b.addr), '.') + ['/'] + d
  {
    if ParseWritten(s) == Some(b) {
      var parts := Split(s, '/');
      JoinSplit(s, '/');
      QuadParses(parts[0]);
      assert parts[1..] == [parts[1]];
      assert s == Join(Quad(b.addr), '.') + ['/'] + parts[1];
    }
    if b.Valid() && exists d :: Digits(d) && Value(d) == b.prefix && s == Join(Quad(b.addr), '.') + ['/'] + d {
      var d :| Digits(d) && Value(d) == b.prefix && s == Join(Quad(b.addr), '.') + ['/'] + d;
      QuadRoundTrip(b.addr);
      assert '/' !in d;
      SplitPrefix(Join(Quad(b.addr), '.'), d, '/');
      SplitPlain(d, '/');
    }
  }

  lemma PrintInjective(b: Block, c: Block)
    requires b.Valid() && c.Valid() && b.Print() == c.Print()
    ensures b == c
  {
    PrintRoundTrip(b);
    PrintRoundTrip(c);
  }

  // ---- masking ----------------------------------------------------------------------------

  lemma {:induction false} ClearTwice(a: nat, h: nat)
    ensures High(ClearLow(a, h), h) == High(a, h)
    ensures ClearLow(ClearLow(a, h), h) == ClearLow(a, h)
  {
    if h > 0 {
      ClearTwice(a / 2, h - 1);
      assert ClearLow(a, h) / 2 == ClearLow(a / 2, h - 1);
    }
  }

  /** Clearing the host bits keeps the admitted addresses and is done once and for all. */
  lemma NetworkAdmitsSame(b: Block)
    requires b.Valid()
    ensures b.Network().Masked()
    ensures forall a: nat :: b.Network().Admits(a) <==> b.Admits(a)
  {
    ClearTwice(b.addr, 32 - b.prefix);
  }

  /** The numbers that share their high bits with an aligned one form an interval that starts there. */
  lemma {:induction false} HighIsInterval(a: nat, start: nat, h: nat)
    requires ClearLow(start, h) == start
    ensures High(a, h) == High(start, h) <==> start <= a < start + Pow2(h)
  {
    if h > 0 {
      HighIsInterval(a / 2, start / 2, h - 1);
    }
  }

  /** An aligned interval that starts below a power of two also ends there. */
  lemma {:induction false} AlignedFits(start: nat, h: nat, n: nat)
    requires h <= n && ClearLow(start, h) == start < Pow2(n)
    ensures start + Pow2(h) <= Pow2(n)
  {
    if h > 0 {
      AlignedFits(start / 2, h - 1, n - 1);
    }
  }

  lemma {:induction false} Pow2Grows(m: nat, n: nat)
    requires m < n
    ensures Pow2(m) < Pow2(n)
  {
    if m + 1 < n {
      Pow2Grows(m, n - 1);
    }
  }

  lemma Pow2Of32()
    ensures Pow2(32) == ADDRESSES
  {
    assert Pow2(8) == 0x100;
    assert Pow2(16) == 0x1_0000;
    assert Pow2(24) == 0x100_0000;
  }

  lemma BlockFits(b: Block, h: nat, n: nat)
    requires b.Masked() && h == 32 - b.prefix && n == 32
    ensures b.addr + Pow2(h) <= ADDRESSES
  {
    Pow2Of32();
    AlignedFits(b.addr, h, n);
  }

  lemma AdmitsInterval(b: Block, h: nat, a: nat)
    requires b.Masked() && h == 32 - b.prefix && b.addr + Pow2(h) <= ADDRESSES
    ensures b.Admits(a) <==> b.addr <= a < b.addr + Pow2(h)
  {
    assert ClearLow(b.addr, h) == b.addr;
    HighIsInterval(a, b.addr, h);
  }

  /** A masked block admits the interval of 2^(32 - prefix) addresses that starts at its own. */
  lemma IntervalOf(b: Block)
    requires b.Masked()
    ensures b.addr + Pow2(32 - b.prefix) <= ADDRESSES
    ensures forall a: nat :: b.Admits(a) <==> b.addr <= a < b.addr + Pow2(32 - b.prefix)
  {
    var h := 32 - b.prefix;
    BlockFits(b, h, 32);
    forall a: nat
      ensures b.Admits(a) <==> b.addr <= a < b.addr + Pow2(h)
    {
      AdmitsInterval(b, h, a);
    }
  }

  lemma {:induction false} SameSizeSameExponent(m: nat, n: nat)
    requires Pow2(m) == Pow2(n)
    ensures m == n
  {
    if m < n {
      Pow2Grows(m, n);
    } else if n < m {
      Pow2Grows(n, m);
    }
  }

  lemma SameIntervalSameBlock(b: Block, c: Block)
    requires b.Masked() && c.Masked()
    requires forall a: nat :: b.Admits(a) <==> c.Admits(a)
    ensures b == c
  {
    IntervalOf(b);
    IntervalOf(c);
    var m, n := Pow2(32 - b.prefix), Pow2(32 - c.prefix);
    assert b.Admits(b.addr) && c.Admits(c.addr);
    assert b.Admits(b.addr + m - 1) && c.Admits(c.addr + n - 1);
    SameSizeSameExponent(32 - b.prefix, 32 - c.prefix);
  }

  /** Two masked blocks admit the same addresses exactly when they are the same block. */
  lemma SameAddressesSameBlock(b: Block, c: Block)
    requires b.Masked() && c.Masked()
    ensures (forall a: nat :: b.Admits(a) <==> c.Admits(a)) <==> b == c
  {
    if forall a: nat :: b.Admits(a) <==> c.Admits(a) {
      SameIntervalSameBlock(b, c);
    }
  }

  // ---- specifications as the user writes them ---------------------------------------------

  /** The block a configured string denotes, once surrounding white space is gone. */
  function Written(spec: string): (r: Option<Block>)
    ensures r.Some? ==> r.value.Valid()
  {
    ParseWritten(TrimSpace(spec))
  }

  predicate SpecAdmits(spec: string, a: nat) {
    Written(spec).Some? && Written(spec).value.Admits(a)
  }

  /** The key under which a specification is stored. */
  function KeyOf(spec: string): string
    requires Written(spec).Some?
  {
    NetworkAdmitsSame(Written(spec).value);
    Written(spec).value.Network().Print()
  }

  /** Two specifications share a key exactly when they admit the same addresses. */
  lemma SameKeySameAddresses(s: string, t: string)
    requires Written(s).Some? && Written(t).Some?
    ensures KeyOf(s) == KeyOf(t) <==> forall a: nat :: SpecAdmits(s, a) <==> SpecAdmits(t, a)
  {
    var b, c := Written(s).value, Written(t).value;
    NetworkAdmitsSame(b);
    NetworkAdmitsSame(c);
    SameAddressesSameBlock(b.Network(), c.Network());
    if KeyOf(s) == KeyOf(t) {
      PrintInjective(b.Network(), c.Network());
      forall a: nat
        ensures SpecAdmits(s, a) <==> SpecAdmits(t, a)
      {
        assert b.Network().Admits(a) == b.Admits(a);
        assert c.Network().Admits(a) == c.Admits(a);
      }
    } else if forall a: nat :: SpecAdmits(s, a) <==> SpecAdmits(t, a) {
      forall a: nat
        ensures b.Network().Admits(a) <==> c.Network().Admits(a)
      {
        assert SpecAdmits(s, a) <==> SpecAdmits(t, a);
        assert b.Network().Admits(a) == b.Admits(a);
        assert c.Network().Admits(a) == c.Admits(a);
      }
    }
  }
}
