/** The small pieces of JavaScript value semantics the TypeScript sources rely
    on: truthiness and `||` defaults, `Math.min`/`Math.max`, `Array.join`,
    ASCII case mapping, `String.trim` emptiness and number-to-string. */
module Js {
  import opened Wrappers

  /** A string is truthy unless it is undefined or empty. */
  predicate Truthy(s: Option<string>) {
    s.Some? && s.value != ""
  }

  /** `s || d` for an optional string. */
  function StrOr(s: Option<string>, d: string): string {
    if Truthy(s) then s.value else d
  }

  /** `a || b` for two optional strings: `a` when it is truthy, else `b`. */
  function OrElse(a: Option<string>, b: Option<string>): (r: Option<string>)
    ensures Truthy(r) <==> Truthy(a) || Truthy(b)
    ensures Truthy(a) ==> r == a
    ensures !Truthy(a) ==> r == b
  {
    if Truthy(a) then a else b
  }

  /** `n || d` for an optional number: undefined and 0 are falsy. */
  function IntOr(n: Option<int>, d: int): int {
    if n.Some? && n.value != 0 then n.value else d
  }

  /** `x || d` for an optional real (temperatures). */
  function RealOr(x: Option<real>, d: real): real {
    if x.Some? && x.value != 0.0 then x.value else d
  }

  function Min(a: int, b: int): (r: int)
    ensures r <= a && r <= b && (r == a || r == b)
  {
    if a <= b then a else b
  }

  function Max(a: int, b: int): (r: int)
    ensures r >= a && r >= b && (r == a || r == b)
  {
    if a >= b then a else b
  }

  // ---------------------------------------------------------------------
  // Array.prototype.join

  /** `parts.join(sep)`. */
  function Join(parts: seq<string>, sep: string): string
    decreases |parts|
  {
    if |parts| == 0 then ""
    else if |parts| == 1 then parts[0]
    else parts[0] + sep + Join(parts[1..], sep)
  }

  /** The sum of the lengths of the parts. */
  function TotalLength(parts: seq<string>): nat
    decreases |parts|
  {
    if |parts| == 0 then 0 else |parts[0]| + TotalLength(parts[1..])
  }

  /** Every part followed by the separator: an independent description of
      `parts.join(sep) + sep`. */
  function Terminated(parts: seq<string>, sep: string): string
    decreases |parts|
  {
    if |parts| == 0 then "" else parts[0] + sep + Terminated(parts[1..], sep)
  }

  /** A join of n >= 1 parts has the parts' total length plus n - 1
      separators. */
  lemma {:induction false} JoinLength(parts: seq<string>, sep: string)
    requires |parts| > 0
    ensures |Join(parts, sep)| == TotalLength(parts) + (|parts| - 1) * |sep|
    decreases |parts|
  {
    if |parts| == 1 {
      assert parts[1..] == [];
    } else {
      JoinLength(parts[1..], sep);
      calc {
        |Join(parts, sep)|;
        |parts[0]| + |sep| + |Join(parts[1..], sep)|;
        |parts[0]| + |sep| + TotalLength(parts[1..]) + (|parts| - 2) * |sep|;
        { assert (|parts| - 2) * |sep| + |sep| == (|parts| - 1) * |sep|; }
        TotalLength(parts) + (|parts| - 1) * |sep|;
      }
    }
  }

  /** Appending one more separator to a non-empty join terminates every
      part. */
  lemma {:induction false} JoinThenSeparator(parts: seq<string>, sep: string)
    requires |parts| > 0
    ensures Join(parts, sep) + sep == Terminated(parts, sep)
    decreases |parts|
  {
    if |parts| == 1 {
      assert parts[1..] == [];
      assert Terminated(parts, sep) == parts[0] + sep + "";
    } else {
      JoinThenSeparator(parts[1..], sep);
      calc {
        Join(parts, sep) + sep;
        (parts[0] + sep + Join(parts[1..], sep)) + sep;
        parts[0] + sep + (Join(parts[1..], sep) + sep);
        parts[0] + sep + Terminated(parts[1..], sep);
        Terminated(parts, sep);
      }
    }
  }

  lemma JoinThree(a: string, b: string, c: string, sep: string)
    ensures Join([a, b, c], sep) == a + sep + b + sep + c
  {
    assert [a, b, c][1..] == [b, c];
    assert [b, c][1..] == [c];
    assert Join([b, c], sep) == b + sep + c;
    assert Join([a, b, c], sep) == a + sep + (b + sep + c);
  }

  /** `JoinThenSeparator` followed by any further text. */
  lemma JoinThenSeparatorThen(parts: seq<string>, sep: string, tail: string)
    requires |parts| > 0
    ensures Join(parts, sep) + (sep + tail) == Terminated(parts, sep) + tail
  {
    JoinThenSeparator(parts, sep);
    assert Join(parts, sep) + (sep + tail) == (Join(parts, sep) + sep) + tail;
  }

  lemma PrefixOfConcat(a: string, b: string)
    ensures a <= a + b
  {
    assert (a + b)[..|a|] == a;
  }

  // ---------------------------------------------------------------------
  // Occurrence of one string inside another

  /** `b.includes(a)`. */
  predicate IsInfix(a: string, b: string)
    decreases |b|
  {
    a <= b || (|b| > 0 && IsInfix(a, b[1..]))
  }

  lemma {:induction false} InfixOfPrefix(a: string, b: string, c: string)
    requires IsInfix(a, b)
    ensures IsInfix(a, b + c)
    decreases |b|
  {
    if a <= b {
      assert a <= b + c;
    } else {
      InfixOfPrefix(a, b[1..], c);
      assert (b + c)[1..] == b[1..] + c;
    }
  }

  lemma {:induction false} InfixOfSuffix(a: string, b: string, c: string)
    requires IsInfix(a, c)
    ensures IsInfix(a, b + c)
    decreases |b|
  {
    if |b| > 0 {
      InfixOfSuffix(a, b[1..], c);
      assert (b + c)[1..] == b[1..] + c;
    } else {
      assert b + c == c;
    }
  }

  lemma InfixSelf(a: string)
    ensures IsInfix(a, a)
  {
  }

  /** In a + d + b + c, a is a prefix and d and b occur. */
  lemma PartsOfConcat(a: string, d: string, b: string, c: string)
    ensures a <= a + d + b + c
    ensures IsInfix(d, a + d + b + c)
    ensures IsInfix(b, a + d + b + c)
  {
    PrefixOfConcat(a, d + b + c);
    assert a + d + b + c == a + (d + b + c);
    InfixSelf(d);
    InfixOfSuffix(d, a, d);
    InfixOfPrefix(d, a + d, b);
    InfixOfPrefix(d, a + d + b, c);
    InfixSelf(b);
    InfixOfSuffix(b, a + d, b);
    InfixOfPrefix(b, a + d + b, c);
  }

  /** Each part of a join occurs in the joined string. */
  lemma {:induction false} InfixOfJoin(parts: seq<string>, sep: string, k: nat)
    requires k < |parts|
    ensures IsInfix(parts[k], Join(parts, sep))
    decreases |parts|
  {
    if |parts| == 1 {
      InfixSelf(parts[0]);
    } else if k == 0 {
      InfixSelf(parts[0]);
      InfixOfPrefix(parts[0], parts[0], sep + Join(parts[1..], sep));
      assert parts[0] + (sep + Join(parts[1..], sep)) == Join(parts, sep);
    } else {
      InfixOfJoin(parts[1..], sep, k - 1);
      InfixOfSuffix(parts[k], parts[0] + sep, Join(parts[1..], sep));
    }
  }

  // ---------------------------------------------------------------------
  // ASCII case mapping (String.prototype.toLowerCase / toUpperCase on ASCII)

  function LowerChar(c: char): char {
    if 'A' <= c <= 'Z' then (c as int + 32) as char else c
  }

  function UpperChar(c: char): char {
    if 'a' <= c <= 'z' then (c as int - 32) as char else c
  }

  function AsciiLower(s: string): (r: string)
    ensures |r| == |s|
    ensures forall i :: 0 <= i < |s| ==> r[i] == LowerChar(s[i])
  {
    seq(|s|, i requires 0 <= i < |s| => LowerChar(s[i]))
  }

  function AsciiUpper(s: string): (r: string)
    ensures |r| == |s|
    ensures forall i :: 0 <= i < |s| ==> r[i] == UpperChar(s[i])
  {
    seq(|s|, i requires 0 <= i < |s| => UpperChar(s[i]))
  }

  // ---------------------------------------------------------------------
  // String.prototype.trim() == ""

  /** The characters ECMAScript's `trim` removes: WhiteSpace (tab, vertical
      tab, form feed, space, no-break space, byte order mark and the Zs
      category) and LineTerminator (LF, CR, LS, PS). */
  predicate IsJsWhitespace(c: char) {
    var n := c as int;
    n == 0x09 || n == 0x0B || n == 0x0C || n == 0x20 || n == 0xA0 || n == 0xFEFF ||
    n == 0x1680 || (0x2000 <= n <= 0x200A) || n == 0x202F || n == 0x205F || n == 0x3000 ||
    n == 0x0A || n == 0x0D || n == 0x2028 || n == 0x2029
  }

  /** `s.trim()` is the empty string. */
  predicate IsBlank(s: string) {
    forall i :: 0 <= i < |s| ==> IsJsWhitespace(s[i])
  }

  // ---------------------------------------------------------------------
  // Number to decimal string (template literals `${n}` of a non-negative
  // integer)

  function DigitChar(d: nat): char
    requires d < 10
  {
    ('0' as int + d) as char
  }

  predicate IsDigit(c: char) {
    '0' <= c <= '9'
  }

  function NatToString(n: nat): (s: string)
    ensures |s| >= 1
    ensures forall i :: 0 <= i < |s| ==> IsDigit(s[i])
    ensures |s| > 1 ==> s[0] != '0'
    decreases n
  {
    if n < 10 then [DigitChar(n)] else NatToString(n / 10) + [DigitChar(n % 10)]
  }

  /** The value of a string of decimal digits. */
  function DigitsValue(s: string): nat
    requires forall i :: 0 <= i < |s| ==> IsDigit(s[i])
    decreases |s|
  {
    if |s| == 0 then 0
    else
      assert IsDigit(s[|s| - 1]);
      DigitsValue(s[..|s| - 1]) * 10 + (s[|s| - 1] as int - '0' as int)
  }

  /** Reading the decimal text back gives the number. */
  lemma {:induction false} NatToStringRoundTrip(n: nat)
    ensures DigitsValue(NatToString(n)) == n
    decreases n
  {
    var s := NatToString(n);
    if n >= 10 {
      NatToStringRoundTrip(n / 10);
      assert s[..|s| - 1] == NatToString(n / 10);
    }
  }
}
