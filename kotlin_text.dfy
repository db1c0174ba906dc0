/**
 * The pieces of Kotlin's standard library that the data layer relies on:
 * integer formatting inside string templates, `String.toInt`, `take`,
 * `joinToString`, the 64-bit `Long` width, and the ordering that
 * `ORDER BY name` applies to text columns.
 */
module KotlinText {
  import opened Wrappers

  const INT_MIN: int := -0x8000_0000
  const INT_MAX: int := 0x7FFF_FFFF
  const LONG_MIN: int := -0x8000_0000_0000_0000
  const LONG_MAX: int := 0x7FFF_FFFF_FFFF_FFFF
  const LONG_MODULUS: int := 0x1_0000_0000_0000_0000

  /** Values of Kotlin's 32-bit `Int`. */
  predicate IsInt(n: int) { INT_MIN <= n <= INT_MAX }

  /** Values of Kotlin's 64-bit `Long`. */
  predicate IsLong(n: int) { LONG_MIN <= n <= LONG_MAX }

  /** Two's-complement wrap-around of a mathematical integer into `Long`,
      which is what Kotlin's `Long` arithmetic does on overflow. */
  function ToLong(n: int): (r: int)
    ensures IsLong(r)
    ensures (r - n) % LONG_MODULUS == 0
    ensures IsLong(n) ==> r == n
  {
    (n - LONG_MIN) % LONG_MODULUS + LONG_MIN
  }

  // ---------------------------------------------------------------------
  // Decimal digits

  predicate IsDigit(c: char) { '0' <= c <= '9' }

  predicate AllDigits(s: string) { forall i :: 0 <= i < |s| ==> IsDigit(s[i]) }

  function DigitChar(d: int): (c: char)
    requires 0 <= d < 10
    ensures IsDigit(c) && c as int - '0' as int == d
  {
    (d + '0' as int) as char
  }

  /** The value of a string of decimal digits, most significant first. */
  function DigitsValue(s: string): nat
    requires AllDigits(s)
  {
    if s == [] then 0 else 10 * DigitsValue(s[..|s| - 1]) + (s[|s| - 1] as int - '0' as int)
  }

  /** Shortest decimal spelling of a natural number (no leading zeros). */
  function NatToString(n: nat): (s: string)
    ensures s != [] && AllDigits(s)
    ensures n == 0 <==> s == "0"
    ensures s[0] == '0' ==> s == "0"
    decreases n
  {
    if n < 10 then [DigitChar(n)] else NatToString(n / 10) + [DigitChar(n % 10)]
  }

  /** How a Kotlin `Int` or `Long` is spelled inside a string template. */
  function IntToString(n: int): (s: string)
    ensures s != []
    ensures s[0] == '-' <==> n < 0
    ensures forall i :: 0 < i < |s| ==> IsDigit(s[i])
    ensures '/' !in s && '.' !in s
  {
    var s := if n < 0 then "-" + NatToString(-n) else NatToString(n);
    assert forall i :: 0 <= i < |s| ==> s[i] == '-' || IsDigit(s[i]);
    s
  }

  lemma {:induction false} NatToStringValue(n: nat)
    ensures DigitsValue(NatToString(n)) == n
  {
    if n >= 10 {
      NatToStringValue(n / 10);
      var s := NatToString(n);
      assert s[..|s| - 1] == NatToString(n / 10);
    }
  }

  /** `s` without its leading '+' or '-', if it has one. */
  function Unsigned(s: string): (d: string)
    ensures |s| > 0 && (s[0] == '-' || s[0] == '+') ==> d == s[1..]
    ensures !(|s| > 0 && (s[0] == '-' || s[0] == '+')) ==> d == s
  {
    if |s| > 0 && (s[0] == '-' || s[0] == '+') then s[1..] else s
  }

  /** The magnitude of the digits after the sign, negated under a leading '-'. */
  function SignedValue(s: string): int
    requires AllDigits(Unsigned(s))
  {
    var magnitude: int := DigitsValue(Unsigned(s));
    if |s| > 0 && s[0] == '-' then -magnitude else magnitude
  }

  /** `String.toIntOrNull()`: an optional sign, at least one decimal digit,
      and a value that fits in `Int`. `String.toInt()` throws exactly where
      this is None. */
  function ParseInt(s: string): (r: Option<int>)
    ensures r.Some? <==> Unsigned(s) != [] && AllDigits(Unsigned(s)) && IsInt(SignedValue(s))
    ensures r.Some? ==> r.value == SignedValue(s)
    ensures r.Some? ==> IsInt(r.value)
    ensures r.Some? ==> s != [] && s != "-" && s != "+"
  {
    var digits := Unsigned(s);
    if digits == [] || !AllDigits(digits) then None
    else if IsInt(SignedValue(s)) then Some(SignedValue(s))
    else None
  }

  /** Formatting an `Int` and parsing it back gives the same number. */
  lemma ParseIntToString(n: int)
    requires IsInt(n)
    ensures ParseInt(IntToString(n)) == Some(n)
  {
    var m: nat := if n < 0 then -n else n;
    NatToStringValue(m);
    var s := IntToString(n);
    if n < 0 {
      assert s[1..] == NatToString(m);
    } else {
      assert s == NatToString(m);
    }
  }

  // ---------------------------------------------------------------------
  // Strings

  /** `String.take(n)`: the first `n` characters, or the whole string when shorter. */
  function Take(s: string, n: nat): (r: string)
    ensures |r| == if |s| < n then |s| else n
    ensures r <= s
  {
    if |s| <= n then s else s[..n]
  }

  /** `String.isNotEmpty()` used through `takeIf`: "" becomes null, anything else passes through. */
  function NonEmpty(s: string): (r: Option<string>)
    ensures r == None <==> s == ""
    ensures r != None ==> r.value == s
  {
    if s != "" then Some(s) else None
  }

  /** `joinToString(separator)` over a list of strings. */
  function Join(xs: seq<string>, separator: string): (r: string)
    ensures xs == [] ==> r == ""
    ensures |xs| == 1 ==> r == xs[0]
    ensures |xs| >= 1 ==> xs[0] <= r && EndsWith(r, xs[|xs| - 1])
    decreases |xs|
  {
    if xs == [] then ""
    else if |xs| == 1 then xs[0]
    else
      var rest := Join(xs[1..], separator);
      EndsWithAfter(xs[0] + separator, rest, xs[|xs| - 1]);
      xs[0] + separator + rest
  }

  /** With a one-character separator that no item contains, splitting the
      joined text gives the items back. */
  lemma {:induction false} SplitJoin(xs: seq<string>, sep: char)
    requires xs != []
    requires forall i :: 0 <= i < |xs| ==> sep !in xs[i]
    ensures SplitOn(Join(xs, [sep]), sep) == xs
  {
    if |xs| == 1 {
      SplitOnPlain(xs[0], sep);
    } else {
      SplitJoin(xs[1..], sep);
      SplitOnConcat(xs[0], Join(xs[1..], [sep]), sep);
      assert [xs[0]] + xs[1..] == xs;
    }
  }

  /** Splitting `t + s`, where `t` has no separator, glues `t` to the front of the first part. */
  lemma {:induction false} SplitOnPrepend(t: string, s: string, sep: char)
    requires sep !in t
    ensures SplitOn(t + s, sep) == [t + SplitOn(s, sep)[0]] + SplitOn(s, sep)[1..]
  {
    var parts := SplitOn(s, sep);
    if t == [] {
      assert t + s == s;
      assert t + parts[0] == parts[0];
      assert [parts[0]] + parts[1..] == parts;
    } else {
      SplitOnPrepend(t[1..], s, sep);
      assert (t + s)[1..] == t[1..] + s;
      assert [t[0]] + (t[1..] + parts[0]) == t + parts[0];
    }
  }

  /** `parts` is the first item, then each later item preceded by `t`. */
  predicate SplitsAtHead(parts: seq<string>, xs: seq<string>, t: string) {
    && |parts| == |xs| && |xs| > 0
    && parts[0] == xs[0]
    && forall i :: 1 <= i < |xs| ==> parts[i] == t + xs[i]
  }

  /** With a separator `[c] + t` where `c` occurs neither in `t` nor in any
      item, splitting the joined text at `c` gives the first item, then each
      later item preceded by `t`. */
  lemma {:induction false} SplitJoinAtHead(xs: seq<string>, c: char, t: string)
    requires xs != []
    requires c !in t
    requires forall i :: 0 <= i < |xs| ==> c !in xs[i]
    ensures SplitsAtHead(SplitOn(Join(xs, [c] + t), c), xs, t)
  {
    if |xs| == 1 {
      SplitOnPlain(xs[0], c);
    } else {
      var rest := Join(xs[1..], [c] + t);
      SplitJoinAtHead(xs[1..], c, t);
      SplitOnPrepend(t, rest, c);
      JoinUnfold(xs[0], rest, c, t);
      SplitOnConcat(xs[0], t + rest, c);
      SplitsAtHeadStep(SplitOn(rest, c), xs, t);
    }
  }

  lemma JoinUnfold(x: string, rest: string, c: char, t: string)
    ensures x + ([c] + t) + rest == x + [c] + (t + rest)
  {
  }

  /** One more item in front: the head part is the new item, and the old head gains the `t` prefix. */
  lemma SplitsAtHeadStep(restParts: seq<string>, xs: seq<string>, t: string)
    requires |xs| >= 2
    requires SplitsAtHead(restParts, xs[1..], t)
    ensures SplitsAtHead([xs[0]] + ([t + restParts[0]] + restParts[1..]), xs, t)
  {
    var parts := [xs[0]] + ([t + restParts[0]] + restParts[1..]);
    forall i | 1 <= i < |xs|
      ensures parts[i] == t + xs[i]
    {
      if i > 1 {
        assert parts[i] == restParts[i - 1];
      }
    }
  }

  /** The `", "` join of the genre merge: splitting at ',' gives the first
      name, then every later name behind a single space. */
  lemma CommaSpaceJoinSplits(xs: seq<string>)
    requires xs != []
    requires forall i :: 0 <= i < |xs| ==> ',' !in xs[i]
    ensures SplitsAtHead(SplitOn(Join(xs, ", "), ','), xs, " ")
  {
    assert ", " == [','] + " ";
    SplitJoinAtHead(xs, ',', " ");
  }

  /** Joining with a non-empty separator is empty exactly for no items or one empty item. */
  lemma JoinIsEmpty(xs: seq<string>, separator: string)
    requires separator != ""
    ensures Join(xs, separator) == "" <==> xs == [] || xs == [""]
  {
    if |xs| >= 2 {
      assert |Join(xs, separator)| >= |separator|;
    }
  }

  /** `suffix` is a tail of `s`. */
  predicate EndsWith(s: string, suffix: string) {
    |suffix| <= |s| && s[|s| - |suffix|..] == suffix
  }

  lemma EndsWithConcat(a: string, b: string)
    ensures EndsWith(a + b, b)
  {
    assert (a + b)[|a + b| - |b|..] == b;
  }

  lemma EndsWithTransitive(s: string, t: string, u: string)
    requires EndsWith(s, t) && EndsWith(t, u)
    ensures EndsWith(s, u)
  {
    assert s[|s| - |u|..] == s[|s| - |t|..][|t| - |u|..];
  }

  /** Whatever `b` ends with, so does anything followed by `b`. */
  lemma EndsWithAfter(a: string, b: string, suffix: string)
    requires EndsWith(b, suffix)
    ensures EndsWith(a + b, suffix)
  {
    EndsWithConcat(a, b);
    EndsWithTransitive(a + b, b, suffix);
  }

  /** `needle` occurs in `s` as a contiguous substring. */
  predicate Contains(s: string, needle: string) {
    exists i :: 0 <= i <= |s| - |needle| && OccursAt(s, needle, i)
  }

  predicate OccursAt(s: string, needle: string, i: int)
    requires 0 <= i <= |s| - |needle|
  {
    s[i..i + |needle|] == needle
  }

  /** Splits `s` at every `sep`; the inverse of joining with a one-character separator. */
  function SplitOn(s: string, sep: char): (parts: seq<string>)
    ensures |parts| >= 1
  {
    if s == [] then [""]
    else
      var rest := SplitOn(s[1..], sep);
      if s[0] == sep then [""] + rest else [[s[0]] + rest[0]] + rest[1..]
  }

  lemma {:induction false} SplitOnPlain(a: string, sep: char)
    requires sep !in a
    ensures SplitOn(a, sep) == [a]
  {
    if a != [] {
      SplitOnPlain(a[1..], sep);
      assert [a[0]] + a[1..] == a;
    }
  }

  /** Splitting `a + sep + b`, where `a` has no separator, yields `a` followed by the parts of `b`. */
  lemma {:induction false} SplitOnConcat(a: string, b: string, sep: char)
    requires sep !in a
    ensures SplitOn(a + [sep] + b, sep) == [a] + SplitOn(b, sep)
  {
    if a == [] {
      assert (a + [sep] + b)[1..] == b;
    } else {
      SplitOnConcat(a[1..], b, sep);
      assert (a + [sep] + b)[1..] == a[1..] + [sep] + b;
      assert [a[0]] + a[1..] == a;
    }
  }

  /** Splitting `a + sep + b`, where `b` has no separator, yields the parts of `a` followed by `b`. */
  lemma {:induction false} SplitOnSnoc(a: string, b: string, sep: char)
    requires sep !in b
    ensures SplitOn(a + [sep] + b, sep) == SplitOn(a, sep) + [b]
  {
    if a == [] {
      assert (a + [sep] + b)[1..] == b;
      SplitOnPlain(b, sep);
    } else {
      SplitOnSnoc(a[1..], b, sep);
      assert (a + [sep] + b)[1..] == a[1..] + [sep] + b;
    }
  }

  // ---------------------------------------------------------------------
  // Text ordering

  /** Lexicographic order on character codes: the BINARY collation that
      `ORDER BY name ASC` applies, with a proper prefix sorting first. */
  predicate StrLe(a: string, b: string) {
    if a == [] then true
    else if b == [] then false
    else if a[0] != b[0] then a[0] < b[0]
    else StrLe(a[1..], b[1..])
  }

  lemma {:induction false} StrLeTotal(a: string, b: string)
    ensures StrLe(a, b) || StrLe(b, a)
  {
    if a != [] && b != [] && a[0] == b[0] {
      StrLeTotal(a[1..], b[1..]);
    }
  }

  lemma {:induction false} StrLeTransitive(a: string, b: string, c: string)
    requires StrLe(a, b) && StrLe(b, c)
    ensures StrLe(a, c)
  {
    if a != [] && b != [] && c != [] && a[0] == b[0] == c[0] {
      StrLeTransitive(a[1..], b[1..], c[1..]);
    }
  }

  lemma {:induction false} StrLeAntisymmetric(a: string, b: string)
    requires StrLe(a, b) && StrLe(b, a)
    ensures a == b
  {
    if a != [] && b != [] {
      StrLeAntisymmetric(a[1..], b[1..]);
      assert a == [a[0]] + a[1..];
      assert b == [b[0]] + b[1..];
    }
  }
}
