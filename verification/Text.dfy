// Strings as the controller handles them: splitting, joining, trimming and decimal numbers.
module Text {

  datatype Option<+T> = None | Some(value: T)

  /** The outcome of a call that either yields a value or an error. */
  datatype Result<+T, +E> = Ok(value: T) | Err(error: E)

  function Elems<T>(s: seq<T>): set<T> {
    set x | x in s
  }

  // ---- splitting and joining --------------------------------------------------------------

  function Split(s: string, sep: char): (parts: seq<string>)
    ensures |parts| >= 1
    ensures forall p :: p in parts ==> sep !in p
  {
    if s == "" then [""]
    else
      var rest := Split(s[1..], sep);
      if s[0] == sep then [""] + rest else [[s[0]] + rest[0]] + rest[1..]
  }

  function Join(parts: seq<string>, sep: char): string
    requires |parts| >= 1
  {
    if |parts| == 1 then parts[0] else parts[0] + [sep] + Join(parts[1..], sep)
  }

  lemma {:induction false} SplitPrefix(p: string, rest: string, sep: char)
    requires sep !in p
    ensures Split(p + [sep] + rest, sep) == [p] + Split(rest, sep)
  {
    var s := p + [sep] + rest;
    if p == "" {
      assert s[1..] == rest;
    } else {
      assert s[1..] == p[1..] + [sep] + rest;
      SplitPrefix(p[1..], rest, sep);
      assert [p[0]] + p[1..] == p;
    }
  }

  lemma {:induction false} SplitPlain(p: string, sep: char)
    requires sep !in p
    ensures Split(p, sep) == [p]
  {
    if p != "" {
      SplitPlain(p[1..], sep);
      assert [p[0]] + p[1..] == p;
    }
  }

  /** Joined parts come apart again, as long as no part holds the separator. */
  lemma {:induction false} SplitJoin(parts: seq<string>, sep: char)
    requires |parts| >= 1
    requires forall p :: p in parts ==> sep !in p
    ensures Split(Join(parts, sep), sep) == parts
  {
    if |parts| == 1 {
      SplitPlain(parts[0], sep);
    } else {
      SplitJoin(parts[1..], sep);
      SplitPrefix(parts[0], Join(parts[1..], sep), sep);
    }
  }

  // ---- trimming ---------------------------------------------------------------------------

  /** White space as Unicode defines it. */
  predicate IsSpace(c: char) {
    || '\U{0009}' <= c <= '\U{000D}'
    || c in {' ', '\U{0085}', '\U{00A0}', '\U{1680}', '\U{2028}', '\U{2029}', '\U{202F}', '\U{205F}', '\U{3000}'}
    || '\U{2000}' <= c <= '\U{200A}'
  }

  predicate Trimmed(s: string) {
    s == "" || (!IsSpace(s[0]) && !IsSpace(s[|s| - 1]))
  }

  predicate AllSpace(s: string) {
    forall i :: 0 <= i < |s| ==> IsSpace(s[i])
  }

  function TrimSpace(s: string): (t: string)
    ensures Trimmed(t)
    ensures Trimmed(s) ==> t == s
    ensures forall c :: c in t ==> c in s
    decreases |s|
  {
    if s == "" then s
    else if IsSpace(s[0]) then TrimSpace(s[1..])
    else if IsSpace(s[|s| - 1]) then TrimSpace(s[..|s| - 1])
    else s
  }

  /** `t` is what is left of `s` without its first `i` characters and those from `j` on, all white space. */
  predicate Between(s: string, i: nat, j: nat, t: string) {
    i <= j <= |s| && t == s[i..j] && AllSpace(s[..i]) && AllSpace(s[j..])
  }

  lemma BetweenAfter(s: string, i: nat, j: nat, t: string)
    requires s != "" && IsSpace(s[0]) && Between(s[1..], i, j, t)
    ensures Between(s, i + 1, j + 1, t)
  {
    assert s[1..][i..j] == s[i + 1..j + 1];
    assert s[1..][j..] == s[j + 1..];
    assert s[..i + 1] == [s[0]] + s[1..][..i];
  }

  lemma BetweenBefore(s: string, i: nat, j: nat, t: string)
    requires s != "" && IsSpace(s[|s| - 1]) && Between(s[..|s| - 1], i, j, t)
    ensures Between(s, i, j, t)
  {
    var r := s[..|s| - 1];
    assert r[i..j] == s[i..j];
    assert r[..i] == s[..i];
    assert s[j..] == r[j..] + [s[|s| - 1]];
  }

  /** The trimmed text is a slice, and all around it is white space. */
  lemma {:induction false} TrimIsSlice(s: string) returns (i: nat, j: nat)
    ensures Between(s, i, j, TrimSpace(s))
    decreases |s|
  {
    if s == "" {
      i, j := 0, 0;
    } else if IsSpace(s[0]) {
      i, j := TrimIsSlice(s[1..]);
      BetweenAfter(s, i, j, TrimSpace(s));
      i, j := i + 1, j + 1;
    } else if IsSpace(s[|s| - 1]) {
      i, j := TrimIsSlice(s[..|s| - 1]);
      BetweenBefore(s, i, j, TrimSpace(s));
    } else {
      i, j := 0, |s|;
    }
  }

  /** Trimming takes off the white space around a trimmed text, and nothing else. */
  lemma {:induction false} TrimPadded(u: string, p: string, v: string)
    requires AllSpace(u) && AllSpace(v) && Trimmed(p)
    ensures TrimSpace(u + p + v) == p
    decreases |u| + |v|
  {
    var s := u + p + v;
    if u != "" {
      assert s[0] == u[0] && s[1..] == u[1..] + p + v;
      TrimPadded(u[1..], p, v);
    } else if v != "" {
      assert s[|s| - 1] == v[|v| - 1] && s[..|s| - 1] == u + p + v[..|v| - 1];
      if p == "" {
        assert s == v && s[1..] == u + p + v[1..];
        TrimPadded(u, p, v[1..]);
      } else {
        assert s[0] == p[0];
        TrimPadded(u, p, v[..|v| - 1]);
      }
    } else {
      assert s == p;
    }
  }

  // ---- decimal numbers --------------------------------------------------------------------

  predicate Digits(s: string) {
    s != "" && forall i :: 0 <= i < |s| ==> '0' <= s[i] <= '9'
  }

  function Digit(n: nat): char
    requires n < 10
  {
    '0' + n as char
  }

  function Decimal(n: nat): string {
    if n < 10 then [Digit(n)] else Decimal(n / 10) + [Digit(n % 10)]
  }

  function Value(s: string): nat
    requires forall i :: 0 <= i < |s| ==> '0' <= s[i] <= '9'
  {
    if s == "" then 0 else Value(s[..|s| - 1]) * 10 + (s[|s| - 1] - '0') as nat
  }

  /** Printing a number and reading it back is the identity, and no superfluous zero is printed. */
  lemma {:induction false} ValueDecimal(n: nat)
    ensures Digits(Decimal(n)) && Value(Decimal(n)) == n
    ensures Decimal(n)[0] == '0' ==> n == 0
  {
    if n >= 10 {
      ValueDecimal(n / 10);
      var s := Decimal(n);
      assert s[..|s| - 1] == Decimal(n / 10);
    }
  }
}
