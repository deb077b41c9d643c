/** String primitives the explorer relies on: substring search
    (`String.prototype.includes`, `indexOf`, `replace` with a string pattern),
    `split` on one separator character, decimal rendering of numbers
    (template literals, `String(n)`), the canonical-number test used when
    sorting job ids, code-unit order (standing in for `localeCompare`) and
    upper-casing of a first letter. */
module Strings {
  import opened Wrappers

  // ---------------------------------------------------------------------
  // Substring search
  // ---------------------------------------------------------------------

  /** `pat` occurs in `s` starting at index `i`. */
  predicate OccursAt(s: string, pat: string, i: int) {
    0 <= i && i + |pat| <= |s| && s[i..i + |pat|] == pat
  }

  function IndexFrom(s: string, pat: string, k: nat): (r: Option<nat>)
    ensures r.Some? ==> k <= r.value && OccursAt(s, pat, r.value)
    ensures r.Some? ==> forall j :: k <= j < r.value ==> !OccursAt(s, pat, j)
    ensures r.None? ==> forall j :: k <= j ==> !OccursAt(s, pat, j)
    decreases |s| - k
  {
    if k + |pat| > |s| then None
    else if s[k..k + |pat|] == pat then Some(k)
    else IndexFrom(s, pat, k + 1)
  }

  /** `s.indexOf(pat)`: the first index where `pat` occurs, if any. */
  function IndexOf(s: string, pat: string): (r: Option<nat>)
    ensures r.Some? ==> OccursAt(s, pat, r.value)
    ensures r.Some? ==> forall j :: 0 <= j < r.value ==> !OccursAt(s, pat, j)
    ensures r.None? <==> forall j :: !OccursAt(s, pat, j)
  {
    IndexFrom(s, pat, 0)
  }

  /** `s.includes(pat)`. */
  predicate Includes(s: string, pat: string) {
    IndexOf(s, pat).Some?
  }

  lemma IncludesIff(s: string, pat: string)
    ensures Includes(s, pat) <==> exists i :: OccursAt(s, pat, i)
  {
  }

  /** An occurrence with none before it is the one `indexOf` finds. */
  lemma FirstOccurrence(s: string, pat: string, i: nat)
    requires OccursAt(s, pat, i)
    requires forall j :: 0 <= j < i ==> !OccursAt(s, pat, j)
    ensures IndexOf(s, pat) == Some(i)
  {
  }

  /** `s.replace(pat, rep)` with a string pattern: only the FIRST occurrence
      is replaced. */
  function ReplaceFirst(s: string, pat: string, rep: string): (r: string)
    ensures IndexOf(s, pat).None? ==> r == s
    ensures IndexOf(s, pat).Some? ==>
      var i := IndexOf(s, pat).value;
      r == s[..i] + rep + s[i + |pat|..]
  {
    match IndexOf(s, pat)
    case None => s
    case Some(i) => s[..i] + rep + s[i + |pat|..]
  }

  // ---------------------------------------------------------------------
  // Splitting on one separator character
  // ---------------------------------------------------------------------

  /** `s.split(sep)` for a one-character separator: the pieces between
      separators, always at least one (`"".split(":")` is `[""]`). */
  function Split(s: string, sep: char): (parts: seq<string>)
    ensures |parts| >= 1
    decreases |s|
  {
    if s == [] then [""]
    else
      var rest := Split(s[1..], sep);
      if s[0] == sep then [""] + rest
      else [[s[0]] + rest[0]] + rest[1..]
  }

  /** `parts.join(sep)`. */
  function Join(parts: seq<string>, sep: char): string
    decreases |parts|
  {
    if parts == [] then ""
    else if |parts| == 1 then parts[0]
    else parts[0] + [sep] + Join(parts[1..], sep)
  }

  /** Number of occurrences of `c` in `s`. */
  function Count(s: string, c: char): nat
    decreases |s|
  {
    if s == [] then 0 else (if s[0] == c then 1 else 0) + Count(s[1..], c)
  }

  /** Splitting loses nothing: joining the pieces with the separator gives the
      string back, no piece holds the separator, and there is one more piece
      than there are separators. */
  lemma {:induction false} SplitJoin(s: string, sep: char)
    ensures Join(Split(s, sep), sep) == s
    ensures forall k :: 0 <= k < |Split(s, sep)| ==> sep !in Split(s, sep)[k]
    ensures |Split(s, sep)| == Count(s, sep) + 1
    decreases |s|
  {
    if s != [] {
      SplitJoin(s[1..], sep);
      if s[0] == sep {
        SplitJoinAtSep(s, sep);
      } else {
        SplitJoinAtChar(s, sep);
      }
    }
  }

  /** The step of `SplitJoin` for a string that starts with the separator. */
  lemma SplitJoinAtSep(s: string, sep: char)
    requires s != [] && s[0] == sep
    requires Join(Split(s[1..], sep), sep) == s[1..]
    requires forall k :: 0 <= k < |Split(s[1..], sep)| ==> sep !in Split(s[1..], sep)[k]
    requires |Split(s[1..], sep)| == Count(s[1..], sep) + 1
    ensures Join(Split(s, sep), sep) == s
    ensures forall k :: 0 <= k < |Split(s, sep)| ==> sep !in Split(s, sep)[k]
    ensures |Split(s, sep)| == Count(s, sep) + 1
  {
    var rest := Split(s[1..], sep);
    assert Split(s, sep) == [""] + rest;
    assert ([""] + rest)[1..] == rest;
    assert Join(Split(s, sep), sep) == "" + [sep] + Join(rest, sep);
    assert s == [s[0]] + s[1..];
  }

  /** The step of `SplitJoin` for a string that starts with another
      character. */
  lemma SplitJoinAtChar(s: string, sep: char)
    requires s != [] && s[0] != sep
    requires Join(Split(s[1..], sep), sep) == s[1..]
    requires forall k :: 0 <= k < |Split(s[1..], sep)| ==> sep !in Split(s[1..], sep)[k]
    requires |Split(s[1..], sep)| == Count(s[1..], sep) + 1
    ensures Join(Split(s, sep), sep) == s
    ensures forall k :: 0 <= k < |Split(s, sep)| ==> sep !in Split(s, sep)[k]
    ensures |Split(s, sep)| == Count(s, sep) + 1
  {
    JoinAtChar(s, sep);
    PiecesAtChar(s, sep);
  }

  lemma JoinAtChar(s: string, sep: char)
    requires s != [] && s[0] != sep
    requires Join(Split(s[1..], sep), sep) == s[1..]
    ensures Join(Split(s, sep), sep) == s
  {
    var rest := Split(s[1..], sep);
    var parts := Split(s, sep);
    assert parts == [[s[0]] + rest[0]] + rest[1..];
    if |rest| == 1 {
      assert Join(parts, sep) == [s[0]] + rest[0];
      assert Join(rest, sep) == rest[0];
    } else {
      var tail := Join(rest[1..], sep);
      assert parts[1..] == rest[1..];
      assert Join(parts, sep) == [s[0]] + rest[0] + [sep] + tail;
      assert Join(rest, sep) == rest[0] + [sep] + tail;
      ConsAssociates([s[0]], rest[0], [sep], tail);
    }
    assert s == [s[0]] + s[1..];
  }

  lemma ConsAssociates(a: string, b: string, c: string, d: string)
    ensures a + b + c + d == a + (b + c + d)
  {
  }

  lemma PiecesAtChar(s: string, sep: char)
    requires s != [] && s[0] != sep
    requires forall k :: 0 <= k < |Split(s[1..], sep)| ==> sep !in Split(s[1..], sep)[k]
    requires |Split(s[1..], sep)| == Count(s[1..], sep) + 1
    ensures forall k :: 0 <= k < |Split(s, sep)| ==> sep !in Split(s, sep)[k]
    ensures |Split(s, sep)| == Count(s, sep) + 1
  {
    var rest := Split(s[1..], sep);
    var parts := Split(s, sep);
    assert parts == [[s[0]] + rest[0]] + rest[1..];
    forall k | 0 <= k < |parts| ensures sep !in parts[k] {
      if k > 0 {
        assert parts[k] == rest[k];
      }
    }
  }

  /** A string without the separator is a single piece. */
  lemma {:induction false} SplitNoSep(s: string, sep: char)
    requires sep !in s
    ensures Split(s, sep) == [s]
    decreases |s|
  {
    if s != [] {
      SplitNoSep(s[1..], sep);
      assert s == [s[0]] + s[1..];
    }
  }

  /** The first piece ends at the first separator. */
  lemma {:induction false} SplitAfterPiece(a: string, rest: string, sep: char)
    requires sep !in a
    ensures Split(a + [sep] + rest, sep) == [a] + Split(rest, sep)
    decreases |a|
  {
    var s := a + [sep] + rest;
    if a == [] {
      assert s[1..] == rest;
    } else {
      assert s[1..] == a[1..] + [sep] + rest;
      SplitAfterPiece(a[1..], rest, sep);
      assert a == [a[0]] + a[1..];
    }
  }

  // ---------------------------------------------------------------------
  // Decimal text of numbers
  // ---------------------------------------------------------------------

  predicate IsDigit(c: char) {
    '0' <= c <= '9'
  }

  function DigitChar(d: nat): (c: char)
    requires d < 10
    ensures IsDigit(c) && (c as int) - ('0' as int) == d
  {
    (('0' as int) + d) as char
  }

  /** `String(n)` / `${n}` for a natural number. */
  function NatToString(n: nat): string
    decreases n
  {
    if n < 10 then [DigitChar(n)] else NatToString(n / 10) + [DigitChar(n % 10)]
  }

  /** `String(i)` / `${i}` for an integer. */
  function IntToString(i: int): string {
    if i < 0 then "-" + NatToString(-i) else NatToString(i)
  }

  predicate AllDigits(s: string) {
    forall k :: 0 <= k < |s| ==> IsDigit(s[k])
  }

  /** Decimal digits without superfluous leading zeros: the only way
      `String(n)` writes a natural number. */
  predicate IsCanonicalNat(s: string) {
    |s| >= 1 && AllDigits(s) && (s[0] == '0' ==> |s| == 1)
  }

  function DigitsValue(s: string): nat
    requires AllDigits(s)
    decreases |s|
  {
    if s == [] then 0
    else DigitsValue(s[..|s| - 1]) * 10 + ((s[|s| - 1] as int) - ('0' as int))
  }

  /** Rendering a natural number gives canonical digits that read back as
      the same number. */
  lemma {:induction false} NatToStringCanonical(n: nat)
    ensures IsCanonicalNat(NatToString(n))
    ensures DigitsValue(NatToString(n)) == n
    ensures |NatToString(n)| >= 2 <==> n >= 10
    decreases n
  {
    var s := NatToString(n);
    if n >= 10 {
      NatToStringCanonical(n / 10);
      var p := NatToString(n / 10);
      assert s == p + [DigitChar(n % 10)];
      assert s[..|s| - 1] == p;
      assert s[0] == p[0];
    }
  }

  /** Canonical digits are exactly what rendering their value produces. */
  lemma {:induction false} CanonicalNatRoundTrip(s: string)
    requires IsCanonicalNat(s)
    ensures NatToString(DigitsValue(s)) == s
    decreases |s|
  {
    var v := DigitsValue(s);
    if |s| == 1 {
      assert s[..0] == [] && IsDigit(s[0]);
      assert v == DigitsValue(s[..0]) * 10 + ((s[0] as int) - ('0' as int));
      assert NatToString(v) == [DigitChar(v)];
    } else {
      var p := s[..|s| - 1];
      assert p[0] == s[0];
      assert IsCanonicalNat(p);
      CanonicalNatRoundTrip(p);
      PositiveLeadingDigit(p);
      assert v / 10 == DigitsValue(p);
      assert s == p + [s[|s| - 1]];
    }
  }

  lemma {:induction false} PositiveLeadingDigit(s: string)
    requires IsCanonicalNat(s) && s[0] != '0'
    ensures DigitsValue(s) >= 1
    decreases |s|
  {
    if |s| > 1 {
      var p := s[..|s| - 1];
      assert p[0] == s[0];
      PositiveLeadingDigit(p);
    }
  }

  /** Largest number of digits for which the model treats an id as numeric:
      every integer below 10^15 is exact in a double, so `String(Number(s))`
      gives `s` back for canonical integer text of at most this length. */
  const MaxNumericDigits: nat := 15

  /** The numeric-id test of the job sort (`a === String(Number(a))`),
      restricted to integer text: canonical digits, optionally preceded by
      `-`, and never `-0` (which `String` writes as `0`). */
  predicate IsNumericId(s: string) {
    if |s| >= 1 && s[0] == '-' then
      IsCanonicalNat(s[1..]) && s[1..] != "0" && |s| - 1 <= MaxNumericDigits
    else
      IsCanonicalNat(s) && |s| <= MaxNumericDigits
  }

  /** `Number(s)` for a numeric id. */
  function NumericValue(s: string): int
    requires IsNumericId(s)
  {
    if |s| >= 1 && s[0] == '-' then -(DigitsValue(s[1..]) as int) else DigitsValue(s)
  }

  /** A numeric id is exactly the text of its value (`a === String(Number(a))`),
      and every integer with at most 15 digits is written as a numeric id. */
  lemma NumericIdRoundTrip(s: string)
    requires IsNumericId(s)
    ensures IntToString(NumericValue(s)) == s
  {
    if |s| >= 1 && s[0] == '-' {
      CanonicalNatRoundTrip(s[1..]);
      PositiveLeadingDigit(s[1..]);
      assert s == "-" + s[1..];
    } else {
      CanonicalNatRoundTrip(s);
    }
  }

  lemma {:induction false} NatToStringLength(n: nat, k: nat)
    requires n < Pow10(k) && k >= 1
    ensures |NatToString(n)| <= k
    decreases n
  {
    if n >= 10 {
      NatToStringLength(n / 10, k - 1);
    }
  }

  function Pow10(k: nat): (p: nat)
    ensures p >= 1
  {
    if k == 0 then 1 else 10 * Pow10(k - 1)
  }

  /** A negative integer of at most 15 digits is written as a numeric id. */
  lemma NegativeIsNumericId(n: nat)
    requires 0 < n && |NatToString(n)| <= MaxNumericDigits
    ensures IsNumericId("-" + NatToString(n)) && NumericValue("-" + NatToString(n)) == -(n as int)
  {
    NatToStringCanonical(n);
    var s := "-" + NatToString(n);
    assert s[1..] == NatToString(n);
    assert NatToString(n)[0] != '0' by {
      if n < 10 {
        assert NatToString(n) == [DigitChar(n)];
      }
    }
  }

  /** A natural number of at most 15 digits is written as a numeric id. */
  lemma NaturalIsNumericId(n: nat)
    requires |NatToString(n)| <= MaxNumericDigits
    ensures IsNumericId(NatToString(n)) && NumericValue(NatToString(n)) == n
  {
    NatToStringCanonical(n);
    assert IsDigit(NatToString(n)[0]);
  }

  lemma IntToStringIsNumericId(i: int)
    requires -(Pow10(MaxNumericDigits) as int) < i < Pow10(MaxNumericDigits)
    ensures IsNumericId(IntToString(i)) && NumericValue(IntToString(i)) == i
  {
    if i < 0 {
      NatToStringLength(-i, MaxNumericDigits);
      NegativeIsNumericId(-i);
    } else {
      NatToStringLength(i, MaxNumericDigits);
      NaturalIsNumericId(i);
    }
  }

  // ---------------------------------------------------------------------
  // Code-unit order (the model of `localeCompare`)
  // ---------------------------------------------------------------------

  /** Three-way comparison of two strings by code units: negative, zero or
      positive as `a` sorts before, equal to or after `b`. */
  function LexCompare(a: string, b: string): (r: int)
    ensures r == 0 <==> a == b
    ensures -1 <= r <= 1
    decreases |a|
  {
    if a == [] && b == [] then 0
    else if a == [] then -1
    else if b == [] then 1
    else if a[0] < b[0] then -1
    else if a[0] > b[0] then 1
    else
      var r := LexCompare(a[1..], b[1..]);
      assert r == 0 ==> a == [a[0]] + a[1..] && b == [b[0]] + b[1..];
      r
  }

  /** Code-unit order is antisymmetric in sign. */
  lemma {:induction false} LexCompareAntisymmetric(a: string, b: string)
    ensures LexCompare(b, a) == -LexCompare(a, b)
    decreases |a|
  {
    if a != [] && b != [] && a[0] == b[0] {
      LexCompareAntisymmetric(a[1..], b[1..]);
    }
  }

  /** Code-unit order is transitive. */
  lemma {:induction false} LexCompareTransitive(a: string, b: string, c: string)
    requires LexCompare(a, b) <= 0 && LexCompare(b, c) <= 0
    ensures LexCompare(a, c) <= 0
    decreases |a|
  {
    if a != [] && b != [] && c != [] && a[0] == b[0] && b[0] == c[0] {
      LexCompareTransitive(a[1..], b[1..], c[1..]);
    }
  }

  // ---------------------------------------------------------------------
  // First-letter upper-casing
  // ---------------------------------------------------------------------

  /** `c.toUpperCase()` for ASCII letters; other characters are kept. */
  function UpperChar(c: char): char {
    if 'a' <= c <= 'z' then ((c as int) - 32) as char else c
  }

  /** `s.charAt(0).toUpperCase() + s.slice(1)`. */
  function CapitalizeFirst(s: string): (r: string)
    ensures |r| == |s|
    ensures |s| > 0 ==> r[0] == UpperChar(s[0]) && r[1..] == s[1..]
  {
    if s == [] then "" else [UpperChar(s[0])] + s[1..]
  }
}
