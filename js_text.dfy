/** The JavaScript built-ins that the application's rules are written with:
    String.prototype.trim / toUpperCase / toLowerCase / includes / split / padStart,
    Array.prototype.join, parseInt, Number.prototype.toString(radix), `[...new Set(xs)]`,
    and the property names every plain object inherits from Object.prototype.
    Strings are sequences of code points; case mapping covers ASCII letters only. */
module JsText {

  datatype Option<+T> = None | Some(value: T)

  /** A JavaScript value that is "truthy" when it is an optional string:
      `undefined`/`null` and the empty string are falsy. */
  predicate TruthyText(o: Option<string>) {
    o.Some? && o.value != ""
  }

  // ------------------------------------------------------------------
  // Whitespace and trim
  // ------------------------------------------------------------------

  /** The ECMAScript WhiteSpace and LineTerminator code points, which `trim` removes
      and `parseInt` skips. */
  predicate IsJsWhitespace(c: char) {
    c == ' ' || c == '\t' || c == '\n' || c == '\U{B}' || c == '\U{C}' || c == '\r'
    || c == '\U{A0}' || c == '\U{1680}' || ('\U{2000}' <= c <= '\U{200A}')
    || c == '\U{2028}' || c == '\U{2029}' || c == '\U{202F}' || c == '\U{205F}'
    || c == '\U{3000}' || c == '\U{FEFF}'
  }

  /** The length of the whitespace prefix of s. */
  function LeadingWs(s: string): (n: nat)
    ensures n <= |s|
    ensures forall i :: 0 <= i < n ==> IsJsWhitespace(s[i])
    ensures n == |s| || !IsJsWhitespace(s[n])
  {
    if s != [] && IsJsWhitespace(s[0]) then 1 + LeadingWs(s[1..]) else 0
  }

  /** The length of the whitespace suffix of s. */
  function TrailingWs(s: string): (n: nat)
    ensures n <= |s|
    ensures forall i :: |s| - n <= i < |s| ==> IsJsWhitespace(s[i])
    ensures n == |s| || !IsJsWhitespace(s[|s| - 1 - n])
  {
    if s != [] && IsJsWhitespace(s[|s| - 1]) then 1 + TrailingWs(s[..|s| - 1]) else 0
  }

  /** String.prototype.trim. */
  function Trim(s: string): (r: string)
    ensures |r| <= |s|
    ensures r == [] || (!IsJsWhitespace(r[0]) && !IsJsWhitespace(r[|r| - 1]))
  {
    var k := LeadingWs(s);
    var t := s[k..];
    var m := TrailingWs(t);
    assert t[..|t| - m] != [] ==> t[..|t| - m][0] == s[k] && t[..|t| - m][|t| - m - 1] == t[|t| - 1 - m];
    t[..|t| - m]
  }

  /** A string is blank (`!s.trim()`) exactly when every character is whitespace. */
  lemma TrimEmptyIff(s: string)
    ensures Trim(s) == [] <==> forall i :: 0 <= i < |s| ==> IsJsWhitespace(s[i])
  {
    var k := LeadingWs(s);
    var t := s[k..];
    if Trim(s) == [] {
      var m := TrailingWs(t);
      assert m == |t|;
    }
  }

  /** trim leaves a string without edge whitespace as it is. */
  lemma TrimKeepsTrimmed(s: string)
    requires s == [] || (!IsJsWhitespace(s[0]) && !IsJsWhitespace(s[|s| - 1]))
    ensures Trim(s) == s
  {
    assert LeadingWs(s) == 0;
    assert s[0..] == s;
    assert TrailingWs(s) == 0;
  }

  // ------------------------------------------------------------------
  // Case mapping (ASCII letters)
  // ------------------------------------------------------------------

  function UpperChar(c: char): char {
    if 'a' <= c <= 'z' then (c as int - 32) as char else c
  }

  function LowerChar(c: char): char {
    if 'A' <= c <= 'Z' then (c as int + 32) as char else c
  }

  /** String.prototype.toUpperCase on ASCII letters. */
  function ToUpper(s: string): (r: string)
    ensures |r| == |s|
    ensures forall i :: 0 <= i < |s| ==> !('a' <= r[i] <= 'z')
  {
    seq(|s|, i requires 0 <= i < |s| => UpperChar(s[i]))
  }

  /** String.prototype.toLowerCase on ASCII letters. */
  function ToLower(s: string): (r: string)
    ensures |r| == |s|
    ensures forall i :: 0 <= i < |s| ==> !('A' <= r[i] <= 'Z')
  {
    seq(|s|, i requires 0 <= i < |s| => LowerChar(s[i]))
  }

  lemma ToUpperIdempotent(s: string)
    ensures ToUpper(ToUpper(s)) == ToUpper(s)
  {
  }

  /** Case-insensitive comparison: lower-casing an upper-cased string is lower-casing it. */
  lemma ToLowerOfToUpper(s: string)
    ensures ToLower(ToUpper(s)) == ToLower(s)
  {
  }

  lemma ToLowerIdempotent(s: string)
    ensures ToLower(ToLower(s)) == ToLower(s)
  {
  }

  /** Upper-casing does not change whether a string is blank. */
  lemma ToUpperKeepsWhitespace(s: string)
    ensures forall i :: 0 <= i < |s| ==> (IsJsWhitespace(ToUpper(s)[i]) <==> IsJsWhitespace(s[i]))
  {
  }

  // ------------------------------------------------------------------
  // includes
  // ------------------------------------------------------------------

  /** sub occurs in s at offset k. */
  predicate OccursAt(s: string, sub: string, k: int) {
    0 <= k && k + |sub| <= |s| && s[k..k + |sub|] == sub
  }

  /** String.prototype.includes: sub occurs in s at some offset. */
  predicate Includes(s: string, sub: string)
    ensures Includes(s, sub) ==> |sub| <= |s|
    decreases |s|
  {
    sub <= s || (s != [] && Includes(s[1..], sub))
  }

  /** `includes` means: there is an offset at which sub occurs. */
  lemma IncludesAt(s: string, sub: string)
    ensures Includes(s, sub) <==> exists k :: OccursAt(s, sub, k)
  {
    if Includes(s, sub) {
      IncludesHasOffset(s, sub);
    }
    if exists k :: OccursAt(s, sub, k) {
      var k :| OccursAt(s, sub, k);
      OffsetIsIncluded(s, sub, k);
    }
  }

  lemma {:induction false} IncludesHasOffset(s: string, sub: string)
    requires Includes(s, sub)
    ensures exists k :: OccursAt(s, sub, k)
    decreases |s|
  {
    if sub <= s {
      assert OccursAt(s, sub, 0);
    } else {
      IncludesHasOffset(s[1..], sub);
      var k :| OccursAt(s[1..], sub, k);
      assert s[k + 1..k + 1 + |sub|] == s[1..][k..k + |sub|];
      assert OccursAt(s, sub, k + 1);
    }
  }

  lemma {:induction false} OffsetIsIncluded(s: string, sub: string, k: int)
    requires OccursAt(s, sub, k)
    ensures Includes(s, sub)
    decreases k
  {
    if k == 0 {
      assert sub == s[..|sub|];
    } else {
      assert s[1..][k - 1..k - 1 + |sub|] == s[k..k + |sub|];
      OffsetIsIncluded(s[1..], sub, k - 1);
    }
  }

  /** The empty string occurs in every string. */
  lemma IncludesEmpty(s: string)
    ensures Includes(s, "")
  {
  }

  // ------------------------------------------------------------------
  // split and join on a one-character separator
  // ------------------------------------------------------------------

  /** String.prototype.split(sep) for a one-character separator. */
  function Split(s: string, sep: char): (parts: seq<string>)
    ensures |parts| >= 1
    ensures forall i :: 0 <= i < |parts| ==> sep !in parts[i]
    decreases |s|
  {
    if s == [] then [[]]
    else
      var rest := Split(s[1..], sep);
      if s[0] == sep then [[]] + rest
      else [[s[0]] + rest[0]] + rest[1..]
  }

  /** Array.prototype.join(sep). */
  function Join(parts: seq<string>, sep: char): (r: string)
    ensures parts != [] ==> parts[0] <= r
    decreases |parts|
  {
    if |parts| == 0 then []
    else if |parts| == 1 then parts[0]
    else parts[0] + [sep] + Join(parts[1..], sep)
  }

  /** Joining the pieces of a split with the same separator gives the string back. */
  lemma {:induction false} JoinSplit(s: string, sep: char)
    ensures Join(Split(s, sep), sep) == s
    decreases |s|
  {
    if s != [] {
      JoinSplit(s[1..], sep);
      var rest := Split(s[1..], sep);
      if s[0] == sep {
        assert Split(s, sep) == [[]] + rest;
        assert ([[]] + rest)[1..] == rest;
      } else {
        var parts := [[s[0]] + rest[0]] + rest[1..];
        assert Split(s, sep) == parts;
        if |rest| == 1 {
          assert Join(parts, sep) == [s[0]] + rest[0];
        } else {
          assert parts[1..] == rest[1..];
          assert Join(rest, sep) == rest[0] + [sep] + Join(rest[1..], sep);
          assert [s[0]] + (rest[0] + [sep] + Join(rest[1..], sep)) == [s[0]] + rest[0] + [sep] + Join(parts[1..], sep);
        }
      }
    }
  }

  /** A string holds the separator exactly when splitting it gives at least two pieces. */
  lemma {:induction false} SplitCount(s: string, sep: char)
    ensures sep in s <==> |Split(s, sep)| >= 2
    decreases |s|
  {
    if s != [] {
      SplitCount(s[1..], sep);
      if s[0] != sep {
        assert sep in s <==> sep in s[1..];
      }
    }
  }

  /** A string without the separator splits into itself alone. */
  lemma {:induction false} SplitWithoutSeparator(s: string, sep: char)
    requires sep !in s
    ensures Split(s, sep) == [s]
    decreases |s|
  {
    if s != [] {
      SplitWithoutSeparator(s[1..], sep);
      assert [s[0]] + s[1..] == s;
    }
  }

  /** The first piece of a split is a prefix of the string. */
  lemma {:induction false} SplitFirstIsPrefix(s: string, sep: char)
    ensures Split(s, sep)[0] <= s
    decreases |s|
  {
    if s != [] && s[0] != sep {
      SplitFirstIsPrefix(s[1..], sep);
      assert [s[0]] + s[1..] == s;
    }
  }

  /** Splitting at a first separator: the part before it, then the pieces of the rest. */
  lemma {:induction false} SplitAtFirst(a: string, sep: char, b: string)
    requires sep !in a
    ensures Split(a + [sep] + b, sep) == [a] + Split(b, sep)
    decreases |a|
  {
    var s := a + [sep] + b;
    if a == [] {
      assert s[0] == sep && s[1..] == b;
    } else {
      assert s[0] == a[0];
      assert s[1..] == a[1..] + [sep] + b;
      SplitAtFirst(a[1..], sep, b);
      assert [a[0]] + a[1..] == a;
    }
  }

  // ------------------------------------------------------------------
  // Digits, parseInt and Number.prototype.toString(radix)
  // ------------------------------------------------------------------

  /** The value of a digit in the given radix (10 or 16), or -1 for a non-digit. */
  function DigitValue(c: char, radix: nat): (d: int)
    requires radix == 10 || radix == 16
    ensures -1 <= d < radix
  {
    if '0' <= c <= '9' then c as int - '0' as int
    else if radix == 16 && 'a' <= c <= 'f' then c as int - 'a' as int + 10
    else if radix == 16 && 'A' <= c <= 'F' then c as int - 'A' as int + 10
    else -1
  }

  /** The number of leading characters of s that are digits in the radix. */
  function DigitRun(s: string, radix: nat): (n: nat)
    requires radix == 10 || radix == 16
    ensures n <= |s|
    ensures forall i :: 0 <= i < n ==> DigitValue(s[i], radix) >= 0
    ensures n == |s| || DigitValue(s[n], radix) < 0
  {
    if s != [] && DigitValue(s[0], radix) >= 0 then 1 + DigitRun(s[1..], radix) else 0
  }

  /** The value of a string of digits, most significant first. */
  function DigitsValue(ds: string, radix: nat): (v: nat)
    requires radix == 10 || radix == 16
    requires forall i :: 0 <= i < |ds| ==> DigitValue(ds[i], radix) >= 0
  {
    if ds == [] then 0
    else DigitsValue(ds[..|ds| - 1], radix) * radix + DigitValue(ds[|ds| - 1], radix)
  }

  /** The magnitude parseInt reads from s once any sign is removed, or None when no digit
      follows. With `hexPrefix` (parseInt called without a radix) a leading "0x"/"0X"
      switches to radix 16. */
  function ParseMagnitude(u: string, hexPrefix: bool): Option<nat>
  {
    if hexPrefix && |u| >= 2 && u[0] == '0' && (u[1] == 'x' || u[1] == 'X') then
      var h := u[2..];
      var n := DigitRun(h, 16);
      if n == 0 then None else Some(DigitsValue(h[..n], 16))
    else
      var n := DigitRun(u, 10);
      if n == 0 then None else Some(DigitsValue(u[..n], 10))
  }

  /** parseInt(s, 10) when `hexPrefix` is false and parseInt(s) when it is true:
      skip leading whitespace, read an optional sign, then the longest run of digits;
      None stands for NaN (no digit at all). */
  function ParseInt(s: string, hexPrefix: bool): (r: Option<int>)
    ensures r.Some? && r.value < 0 ==> LeadingWs(s) < |s| && s[LeadingWs(s)] == '-'
  {
    var t := s[LeadingWs(s)..];
    var negative := t != [] && t[0] == '-';
    var u := if t != [] && (t[0] == '+' || t[0] == '-') then t[1..] else t;
    match ParseMagnitude(u, hexPrefix)
    case None => None
    case Some(m) => Some(if negative then 0 - m else m)
  }

  /** parseInt finds no number in a string without any decimal digit. */
  lemma ParseIntNeedsDigit(s: string, hexPrefix: bool)
    requires forall i :: 0 <= i < |s| ==> !('0' <= s[i] <= '9')
    ensures ParseInt(s, hexPrefix) == None
  {
    var t := s[LeadingWs(s)..];
    var u := if t != [] && (t[0] == '+' || t[0] == '-') then t[1..] else t;
    assert forall i :: 0 <= i < |u| ==> u[i] == s[|s| - |u| + i];
    assert u == [] || DigitValue(u[0], 10) < 0;
  }

  /** The lower-case digit character for 0 <= d < 16. */
  function DigitChar(d: nat): (c: char)
    requires d < 16
    ensures DigitValue(c, 16) == d
    ensures d < 10 ==> DigitValue(c, 10) == d
  {
    if d < 10 then ('0' as int + d) as char else ('a' as int + d - 10) as char
  }

  /** Number.prototype.toString(radix) for a non-negative integer: the digits without
      leading zeros, lower-case letters for radix 16. */
  function NatToRadix(n: nat, radix: nat): (s: string)
    requires radix == 10 || radix == 16
    ensures |s| >= 1
    ensures forall i :: 0 <= i < |s| ==> DigitValue(s[i], radix) >= 0
    ensures DigitsValue(s, radix) == n
    ensures n < radix <==> |s| == 1
  {
    if n < radix then [DigitChar(n)]
    else
      var s := NatToRadix(n / radix, radix) + [DigitChar(n % radix)];
      assert s[..|s| - 1] == NatToRadix(n / radix, radix);
      s
  }

  lemma ParseMagnitudeOfDigits(s: string, hexPrefix: bool)
    requires |s| >= 1
    requires forall i :: 0 <= i < |s| ==> DigitValue(s[i], 10) >= 0
    ensures ParseMagnitude(s, hexPrefix) == Some(DigitsValue(s, 10))
  {
    DigitRunAll(s, 10);
    assert s[..|s|] == s;
    if |s| >= 2 {
      assert DigitValue(s[1], 10) >= 0;
      assert s[1] != 'x' && s[1] != 'X';
    }
  }

  /** parseInt reads a non-empty string of decimal digits as its decimal value. */
  lemma ParseIntOfDigits(s: string, hexPrefix: bool)
    requires |s| >= 1
    requires forall i :: 0 <= i < |s| ==> DigitValue(s[i], 10) >= 0
    ensures ParseInt(s, hexPrefix) == Some(DigitsValue(s, 10))
  {
    assert '0' <= s[0] <= '9' by { assert DigitValue(s[0], 10) >= 0; }
    assert !IsJsWhitespace(s[0]);
    assert LeadingWs(s) == 0;
    assert s[0..] == s;
    assert s[0] != '+' && s[0] != '-';
    ParseMagnitudeOfDigits(s, hexPrefix);
  }

  /** Printing a non-negative integer in decimal and parsing it back gives the integer. */
  lemma ParseIntOfDecimal(n: nat, hexPrefix: bool)
    ensures ParseInt(NatToRadix(n, 10), hexPrefix) == Some(n)
  {
    ParseIntOfDigits(NatToRadix(n, 10), hexPrefix);
  }

  lemma {:induction false} DigitRunAll(s: string, radix: nat)
    requires radix == 10 || radix == 16
    requires forall i :: 0 <= i < |s| ==> DigitValue(s[i], radix) >= 0
    ensures DigitRun(s, radix) == |s|
    decreases |s|
  {
    if s != [] { DigitRunAll(s[1..], radix); }
  }

  /** String.prototype.padStart(width, fill). */
  function PadStart(s: string, width: nat, fill: char): (r: string)
    ensures |r| == if |s| >= width then |s| else width
    ensures r[|r| - |s|..] == s
    ensures forall i :: 0 <= i < |r| - |s| ==> r[i] == fill
  {
    if |s| >= width then s else seq(width - |s|, _ => fill) + s
  }

  /** `String(n).padStart(2, '0')` for 0 <= n < 100, as the two decimal digits. */
  function TwoDigits(n: nat): (s: string)
    requires n < 100
    ensures |s| == 2 && DigitValue(s[0], 10) * 10 + DigitValue(s[1], 10) == n
    ensures DigitValue(s[0], 10) >= 0 && DigitValue(s[1], 10) >= 0
  {
    [DigitChar(n / 10), DigitChar(n % 10)]
  }

  /** The two digits are exactly the decimal string padded to width two with '0'. */
  lemma TwoDigitsIsPadStart(n: nat)
    requires n < 100
    ensures TwoDigits(n) == PadStart(NatToRadix(n, 10), 2, '0')
  {
    var digits := NatToRadix(n, 10);
    if n >= 10 {
      assert digits == NatToRadix(n / 10, 10) + [DigitChar(n % 10)];
      assert NatToRadix(n / 10, 10) == [DigitChar(n / 10)];
    } else {
      assert DigitChar(0) == '0';
    }
  }

  /** parseInt reads the two padded digits back as the number. */
  lemma ParseIntOfTwoDigits(n: nat, hexPrefix: bool)
    requires n < 100
    ensures ParseInt(TwoDigits(n), hexPrefix) == Some(n)
  {
    var s := TwoDigits(n);
    assert s[..1] == [s[0]];
    assert DigitsValue(s[..1], 10) == DigitValue(s[0], 10) by {
      assert s[..1][..0] == [];
    }
    ParseIntOfDigits(s, hexPrefix);
  }

  // ------------------------------------------------------------------
  // `[...new Set(xs)]`
  // ------------------------------------------------------------------

  /** `[...new Set(xs)]`: the distinct elements of xs in order of first occurrence. */
  function Dedup<T(==)>(xs: seq<T>): (r: seq<T>)
    ensures forall i :: 0 <= i < |xs| ==> xs[i] in r
    ensures forall i :: 0 <= i < |r| ==> r[i] in xs
    ensures forall i, j :: 0 <= i < j < |r| ==> r[i] != r[j]
    ensures |r| <= |xs|
  {
    if xs == [] then []
    else
      var r := Dedup(xs[..|xs| - 1]);
      assert forall i :: 0 <= i < |xs| - 1 ==> xs[i] == xs[..|xs| - 1][i];
      if xs[|xs| - 1] in r then r else r + [xs[|xs| - 1]]
  }

  // ------------------------------------------------------------------
  // Array.prototype.filter
  // ------------------------------------------------------------------

  /** Array.prototype.filter: the elements that `keep` accepts, in their order. */
  function Filter<T(==)>(xs: seq<T>, keep: T -> bool): (r: seq<T>)
    ensures |r| <= |xs|
  {
    if xs == [] then [] else (if keep(xs[0]) then [xs[0]] else []) + Filter(xs[1..], keep)
  }

  /** What filter keeps: exactly the accepted elements. */
  lemma {:induction false} FilterMembers<T>(xs: seq<T>, keep: T -> bool)
    ensures forall i :: 0 <= i < |Filter(xs, keep)| ==> keep(Filter(xs, keep)[i]) && Filter(xs, keep)[i] in xs
    ensures forall i :: 0 <= i < |xs| && keep(xs[i]) ==> xs[i] in Filter(xs, keep)
    decreases |xs|
  {
    if xs != [] {
      FilterMembers(xs[1..], keep);
      var rest := Filter(xs[1..], keep);
      assert forall x :: x in xs[1..] ==> x in xs;
      forall i | 0 <= i < |xs| && keep(xs[i]) ensures xs[i] in Filter(xs, keep) {
        if i > 0 { assert xs[i] == xs[1..][i - 1]; }
      }
    }
  }

  /** a is b with some elements left out: the order of what remains is b's order. */
  predicate IsSubsequence<T(==)>(a: seq<T>, b: seq<T>)
    decreases |b|
  {
    a == [] || (b != [] && if a[0] == b[0] then IsSubsequence(a[1..], b[1..]) else IsSubsequence(a, b[1..]))
  }

  lemma {:induction false} SubsequenceCons<T>(a: seq<T>, x: T, b: seq<T>)
    requires IsSubsequence(a, b)
    ensures IsSubsequence(a, [x] + b)
    decreases |b|, 1
  {
    if a != [] && a[0] != x {
      assert ([x] + b)[1..] == b;
    } else if a != [] {
      // a[0] == x: match x, then a[1..] must be a subsequence of b
      assert ([x] + b)[1..] == b;
      SubsequenceTail(a, b);
    }
  }

  lemma {:induction false} SubsequenceTail<T>(a: seq<T>, b: seq<T>)
    requires a != [] && IsSubsequence(a, b)
    ensures IsSubsequence(a[1..], b)
    decreases |b|, 0
  {
    if a[0] == b[0] {
      if a[1..] != [] {
        SubsequenceCons(a[1..], b[0], b[1..]);
        assert [b[0]] + b[1..] == b;
      }
    } else {
      SubsequenceTail(a, b[1..]);
      if a[1..] != [] {
        SubsequenceCons(a[1..], b[0], b[1..]);
        assert [b[0]] + b[1..] == b;
      }
    }
  }

  /** Filtering keeps the order of the remaining elements. */
  lemma {:induction false} FilterIsSubsequence<T>(xs: seq<T>, keep: T -> bool)
    ensures IsSubsequence(Filter(xs, keep), xs)
    decreases |xs|
  {
    if xs != [] {
      FilterIsSubsequence(xs[1..], keep);
      var rest := Filter(xs[1..], keep);
      if keep(xs[0]) {
        assert Filter(xs, keep) == [xs[0]] + rest;
        assert ([xs[0]] + rest)[1..] == rest;
      } else {
        assert Filter(xs, keep) == rest;
        SubsequenceCons(rest, xs[0], xs[1..]);
        assert [xs[0]] + xs[1..] == xs;
      }
    }
  }

  /** Two tests that agree on every element keep the same elements. */
  lemma {:induction false} FilterSameKeep<T>(xs: seq<T>, k1: T -> bool, k2: T -> bool)
    requires forall i :: 0 <= i < |xs| ==> k1(xs[i]) == k2(xs[i])
    ensures Filter(xs, k1) == Filter(xs, k2)
  {
    if xs != [] {
      assert forall i :: 0 <= i < |xs[1..]| ==> xs[1..][i] == xs[i + 1];
      FilterSameKeep(xs[1..], k1, k2);
    }
  }

  /** A filter that accepts every element returns the sequence unchanged. */
  lemma {:induction false} FilterAll<T>(xs: seq<T>, keep: T -> bool)
    requires forall i :: 0 <= i < |xs| ==> keep(xs[i])
    ensures Filter(xs, keep) == xs
    decreases |xs|
  {
    if xs != [] {
      FilterAll(xs[1..], keep);
      assert [xs[0]] + xs[1..] == xs;
    }
  }

  // ------------------------------------------------------------------
  // Array.prototype.slice
  // ------------------------------------------------------------------

  /** A slice bound as an index into a sequence of length len: a negative bound counts
      from the end, and the result is clamped to [0, len]. */
  function SliceIndex(bound: int, len: nat): (k: nat)
    ensures k <= len
    ensures bound >= 0 ==> k == if bound <= len then bound else len
    ensures bound < 0 ==> k == if len + bound >= 0 then len + bound else 0
  {
    if bound < 0 then (if len + bound >= 0 then len + bound else 0)
    else if bound <= len then bound else len
  }

  /** `xs.slice(start, end)`: the elements from the start bound up to, not including, the end
      bound; empty when the end bound is not past the start bound. */
  function Slice<T>(xs: seq<T>, start: int, end: int): (r: seq<T>)
    ensures var from, to := SliceIndex(start, |xs|), SliceIndex(end, |xs|);
            |r| == (if from < to then to - from else 0)
            && forall i :: 0 <= i < |r| ==> r[i] == xs[from + i]
  {
    var from, to := SliceIndex(start, |xs|), SliceIndex(end, |xs|);
    if from < to then xs[from..to] else []
  }

  // ------------------------------------------------------------------
  // Object.prototype
  // ------------------------------------------------------------------

  /** The property names a plain object literal inherits from Object.prototype: a lookup
      `obj[key]` with one of these keys finds a built-in (a function, or the prototype
      itself for "__proto__") even though the literal does not define it. */
  const InheritedKeys: set<string> := {
    "constructor", "__defineGetter__", "__defineSetter__", "hasOwnProperty",
    "__lookupGetter__", "__lookupSetter__", "isPrototypeOf", "propertyIsEnumerable",
    "toString", "valueOf", "__proto__", "toLocaleString"
  }

  /** What `table[key]` yields on a plain object literal: an own entry, a built-in
      inherited from Object.prototype (truthy, and not an entry), or undefined. */
  datatype Lookup<T> = Own(value: T) | Builtin(key: string) | Missing

  function LookUp<T>(table: map<string, T>, key: string): (l: Lookup<T>)
    ensures l.Own? <==> key in table
    ensures l.Own? ==> l.value == table[key]
    ensures l.Builtin? <==> key !in table && key in InheritedKeys
    ensures l.Builtin? ==> l.key == key
  {
    if key in table then Own(table[key])
    else if key in InheritedKeys then Builtin(key)
    else Missing
  }
}
