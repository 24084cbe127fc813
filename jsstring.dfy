/** The few JavaScript string operations the models rely on: the schema's
    `trim: true` setter (String.prototype.trim), `toUpperCase` on the ASCII
    category names, and the decimal rendering of a millisecond timestamp in a
    template literal. */
module JsString {

  /** ECMAScript WhiteSpace and LineTerminator code points, which `trim` removes. */
  const WHITE_SPACE: set<char> := {
    '\t', '\n', '\U{000B}', '\U{000C}', '\r', ' ', '\U{00A0}', '\U{1680}',
    '\U{2000}', '\U{2001}', '\U{2002}', '\U{2003}', '\U{2004}', '\U{2005}',
    '\U{2006}', '\U{2007}', '\U{2008}', '\U{2009}', '\U{200A}',
    '\U{2028}', '\U{2029}', '\U{202F}', '\U{205F}', '\U{3000}', '\U{FEFF}'
  }

  predicate IsSpace(c: char)
  {
    c in WHITE_SPACE
  }

  /** `s` without its longest prefix of characters satisfying `drop`. */
  function DropLeading(s: string, drop: char -> bool): (r: string)
    ensures |r| <= |s| && r == s[|s| - |r|..]
    ensures forall i :: 0 <= i < |s| - |r| ==> drop(s[i])
    ensures r == [] || !drop(r[0])
  {
    if s != [] && drop(s[0]) then DropLeading(s[1..], drop) else s
  }

  /** `s` without its longest suffix of characters satisfying `drop`. */
  function DropTrailing(s: string, drop: char -> bool): (r: string)
    ensures |r| <= |s| && r == s[..|r|]
    ensures forall i :: |r| <= i < |s| ==> drop(s[i])
    ensures r == [] || !drop(r[|r| - 1])
  {
    if s != [] && drop(s[|s| - 1]) then DropTrailing(s[..|s| - 1], drop) else s
  }

  /** `r` is `s[i..j]`, and every character before `i` and from `j` on
      satisfies `drop`. */
  predicate Bounded(s: string, r: string, i: int, j: int, drop: char -> bool)
  {
    && 0 <= i <= j <= |s| && r == s[i..j]
    && (forall k :: 0 <= k < i ==> drop(s[k]))
    && (forall k :: j <= k < |s| ==> drop(s[k]))
  }

  /** String.prototype.trim: drop leading and trailing white space. */
  function Trim(s: string): (r: string)
    ensures exists i, j :: Bounded(s, r, i, j, IsSpace)
    ensures r == [] || (!IsSpace(r[0]) && !IsSpace(r[|r| - 1]))
  {
    var a := DropLeading(s, IsSpace);
    var r := DropTrailing(a, IsSpace);
    InnerSlice(s, a, r, IsSpace);
    r
  }

  /** A prefix `r` of a suffix `a` of `s`, cut where `drop` stops holding, is
      a slice of `s` bounded by dropped characters with kept characters at
      its ends. */
  lemma InnerSlice(s: string, a: string, r: string, drop: char -> bool)
    requires |a| <= |s| && a == s[|s| - |a|..]
    requires forall k :: 0 <= k < |s| - |a| ==> drop(s[k])
    requires a == [] || !drop(a[0])
    requires |r| <= |a| && r == a[..|r|]
    requires forall k :: |r| <= k < |a| ==> drop(a[k])
    requires r == [] || !drop(r[|r| - 1])
    ensures exists i, j :: Bounded(s, r, i, j, drop)
    ensures r == [] || (!drop(r[0]) && !drop(r[|r| - 1]))
  {
    var i := |s| - |a|;
    SliceOfSuffix(s, i, a, |r|);
    DroppedAfterSuffix(s, i, a, |r|, drop);
    assert Bounded(s, r, i, i + |r|, drop);
  }

  lemma SliceOfSuffix(s: string, i: nat, a: string, m: nat)
    requires i <= |s| && a == s[i..] && m <= |a|
    ensures a[..m] == s[i..i + m]
    ensures m > 0 ==> a[0] == s[i]
  {
  }

  lemma DroppedAfterSuffix(s: string, i: nat, a: string, m: nat, drop: char -> bool)
    requires i <= |s| && a == s[i..] && m <= |a|
    requires forall k :: m <= k < |a| ==> drop(a[k])
    ensures forall k :: i + m <= k < |s| ==> drop(s[k])
  {
    forall k | i + m <= k < |s| ensures drop(s[k]) {
      assert s[k] == a[k - i];
    }
  }

  /** Trimming a string that has no white space at either end changes nothing. */
  lemma {:induction false} TrimOfTrimmed(s: string)
    requires s == [] || (!IsSpace(s[0]) && !IsSpace(s[|s| - 1]))
    ensures Trim(s) == s
  {
    assert DropLeading(s, IsSpace) == s;
    assert DropTrailing(s, IsSpace) == s;
  }

  /** Trimming is idempotent, so a stored (already trimmed) name is a fixed point. */
  lemma TrimIdempotent(s: string)
    ensures Trim(Trim(s)) == Trim(s)
  {
    var t := Trim(s);
    TrimOfTrimmed(t);
    assert Trim(t) == t;
  }

  function UpperChar(c: char): (u: char)
    ensures !('a' <= u <= 'z')
    ensures 'a' <= c <= 'z' ==> u as int == c as int - 32
    ensures !('a' <= c <= 'z') ==> u == c
  {
    if 'a' <= c <= 'z' then (c as int - 32) as char else c
  }

  /** String.prototype.toUpperCase on ASCII text. */
  function ToUpper(s: string): (r: string)
    ensures |r| == |s|
    ensures forall i :: 0 <= i < |s| ==> r[i] == UpperChar(s[i])
  {
    if s == [] then [] else [UpperChar(s[0])] + ToUpper(s[1..])
  }

  function DigitChar(d: nat): (c: char)
    requires d < 10
    ensures '0' <= c <= '9'
  {
    ('0' as int + d) as char
  }

  /** The base-10 rendering of a non-negative integer, as `${n}` produces it. */
  function Decimal(n: nat): (r: string)
    ensures |r| >= 1
    ensures forall i :: 0 <= i < |r| ==> '0' <= r[i] <= '9'
    ensures r[0] == '0' ==> n == 0
  {
    if n < 10 then [DigitChar(n)] else Decimal(n / 10) + [DigitChar(n % 10)]
  }

  /** Reads a string of decimal digits back as a number. */
  function ParseDecimal(s: string): nat
    requires forall i :: 0 <= i < |s| ==> '0' <= s[i] <= '9'
  {
    if s == [] then 0
    else ParseDecimal(s[..|s| - 1]) * 10 + (s[|s| - 1] as int - '0' as int)
  }

  /** Rendering a timestamp is injective: parsing the digits gives the number back. */
  lemma {:induction false} DecimalRoundTrip(n: nat)
    ensures ParseDecimal(Decimal(n)) == n
  {
    if n >= 10 {
      var r := Decimal(n);
      assert r[..|r| - 1] == Decimal(n / 10);
      DecimalRoundTrip(n / 10);
    }
  }

  lemma DecimalInjective(m: nat, n: nat)
    requires Decimal(m) == Decimal(n)
    ensures m == n
  {
    DecimalRoundTrip(m);
    DecimalRoundTrip(n);
  }
}
