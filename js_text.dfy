/**
 * The JavaScript string and number primitives the application relies on,
 * restated over `seq<char>`: `trim`, ASCII `toLowerCase`/`toUpperCase`,
 * `startsWith`, `includes`, `split`/`join`, number-to-string and the subset
 * of `parseFloat` that the forms feed it.
 */
module JsText {

  /**
   * The characters `String.prototype.trim` removes: the ECMAScript white
   * space (tab, vertical tab, form feed, space, no-break space, the byte
   * order mark and the Unicode space separators) and line terminators.
   */
  predicate IsSpace(c: char) {
    c == ' ' || c == '\t' || c == '\n' || c == '\r' || c == 0x0B as char || c == 0x0C as char
    || c == 0xA0 as char || c == 0xFEFF as char || c == 0x2028 as char || c == 0x2029 as char
    || c == 0x1680 as char || (0x2000 as char <= c <= 0x200A as char) || c == 0x202F as char
    || c == 0x205F as char || c == 0x3000 as char
  }

  predicate AllSpace(s: string) {
    forall i :: 0 <= i < |s| ==> IsSpace(s[i])
  }

  /** The number of white-space characters `s` starts with. */
  function LeadingSpace(s: string): (k: nat)
    ensures k <= |s|
    ensures forall i :: 0 <= i < k ==> IsSpace(s[i])
    ensures k == |s| || !IsSpace(s[k])
  {
    if s != [] && IsSpace(s[0]) then 1 + LeadingSpace(s[1..]) else 0
  }

  /** The number of white-space characters `s` ends with. */
  function TrailingSpace(s: string): (k: nat)
    ensures k <= |s|
    ensures forall i :: |s| - k <= i < |s| ==> IsSpace(s[i])
    ensures k == |s| || !IsSpace(s[|s| - k - 1])
  {
    if s != [] && IsSpace(s[|s| - 1]) then 1 + TrailingSpace(s[..|s| - 1]) else 0
  }

  /** `s` with its leading white space removed. */
  function TrimStart(s: string): string {
    s[LeadingSpace(s)..]
  }

  /** `s` with its trailing white space removed. */
  function TrimEnd(s: string): string {
    s[..|s| - TrailingSpace(s)]
  }

  /** `s.trim()`. */
  function Trim(s: string): string {
    TrimEnd(TrimStart(s))
  }

  /** `!s.trim()`: the string is empty or white space only. */
  predicate IsBlank(s: string) {
    Trim(s) == []
  }

  /** A string is blank exactly when every one of its characters is white space. */
  lemma BlankIffAllSpace(s: string)
    ensures IsBlank(s) <==> AllSpace(s)
  {
    if IsBlank(s) && LeadingSpace(s) < |s| {
      assert false;
    }
  }


  predicate IsUpperAscii(c: char) { 'A' <= c <= 'Z' }
  predicate IsLowerAscii(c: char) { 'a' <= c <= 'z' }

  function LowerChar(c: char): char {
    if IsUpperAscii(c) then (c as int + 32) as char else c
  }

  function UpperChar(c: char): char {
    if IsLowerAscii(c) then (c as int - 32) as char else c
  }

  /** `s.toLowerCase()` on the ASCII letters. */
  function Lower(s: string): (r: string)
    ensures |r| == |s|
  {
    seq(|s|, i requires 0 <= i < |s| => LowerChar(s[i]))
  }

  /** `s.toUpperCase()` on the ASCII letters. */
  function Upper(s: string): (r: string)
    ensures |r| == |s|
  {
    seq(|s|, i requires 0 <= i < |s| => UpperChar(s[i]))
  }

  lemma LowerIdempotent(s: string)
    ensures Lower(Lower(s)) == Lower(s)
  {
  }

  /** `s.startsWith(p)`. */
  predicate StartsWith(s: string, p: string) {
    |p| <= |s| && s[..|p|] == p
  }

  /** `p` occurs in `s` starting at index `i`. */
  predicate OccursAt(s: string, p: string, i: int) {
    0 <= i <= |s| - |p| && s[i..i + |p|] == p
  }

  /** `s.includes(p)`. */
  predicate Contains(s: string, p: string)
    decreases |s|
  {
    StartsWith(s, p) || (s != [] && Contains(s[1..], p))
  }

  /** `includes` holds exactly when `p` occurs at some index of `s`. */
  lemma {:induction false} ContainsIffOccurs(s: string, p: string)
    ensures Contains(s, p) <==> exists i :: OccursAt(s, p, i)
    decreases |s|
  {
    if s != [] {
      ContainsIffOccurs(s[1..], p);
    }
    if Contains(s, p) {
      if StartsWith(s, p) {
        assert OccursAt(s, p, 0);
      } else {
        var i :| OccursAt(s[1..], p, i);
        assert s[i + 1..i + 1 + |p|] == s[1..][i..i + |p|];
        assert OccursAt(s, p, i + 1);
      }
    }
    if exists i :: OccursAt(s, p, i) {
      var i :| OccursAt(s, p, i);
      if i == 0 {
        assert s[..|p|] == s[0..0 + |p|];
        assert StartsWith(s, p);
      } else {
        assert s[i..i + |p|] == s[1..][i - 1..i - 1 + |p|];
        assert OccursAt(s[1..], p, i - 1);
      }
    }
  }

  lemma StartsWithContains(s: string, p: string)
    requires StartsWith(s, p)
    ensures Contains(s, p)
  {
  }

  predicate IsDigit(c: char) { '0' <= c <= '9' }

  function DigitValue(c: char): nat
    requires IsDigit(c)
  {
    c as int - '0' as int
  }

  function DigitChar(d: nat): (c: char)
    requires d < 10
    ensures IsDigit(c) && DigitValue(c) == d
  {
    ('0' as int + d) as char
  }

  predicate AllDigits(s: string) {
    forall i :: 0 <= i < |s| ==> IsDigit(s[i])
  }

  /** The value of a string of decimal digits, most significant first. */
  function DigitsValue(s: string): nat
    requires AllDigits(s)
  {
    if s == [] then 0 else DigitsValue(s[..|s| - 1]) * 10 + DigitValue(s[|s| - 1])
  }

  /** `String(n)` / `${n}` for a natural number. */
  function NatToString(n: nat): (r: string)
    ensures r != [] && AllDigits(r)
  {
    if n < 10 then [DigitChar(n)] else NatToString(n / 10) + [DigitChar(n % 10)]
  }

  /** Printing a number and reading its digits back gives the number again. */
  lemma {:induction false} NatToStringRoundTrip(n: nat)
    ensures DigitsValue(NatToString(n)) == n
  {
    if n >= 10 {
      NatToStringRoundTrip(n / 10);
      var s := NatToString(n);
      assert s[..|s| - 1] == NatToString(n / 10);
    }
  }

  /** The longest prefix of `s` made of decimal digits. */
  function LeadingDigits(s: string): (r: string)
    ensures |r| <= |s| && r == s[..|r|] && AllDigits(r)
    ensures |r| < |s| ==> !IsDigit(s[|r|])
  {
    if s != [] && IsDigit(s[0]) then [s[0]] + LeadingDigits(s[1..]) else []
  }

  function Pow10(k: nat): (r: nat)
    ensures r >= 1
  {
    if k == 0 then 1 else 10 * Pow10(k - 1)
  }

  /** A JavaScript number as far as this model needs it: a finite value or NaN. */
  datatype JsNumber = Finite(value: real) | NaN {
    /** `x > 0`: false for NaN. */
    predicate Positive() { Finite? && value > 0.0 }
    /** `x <= 0`: false for NaN. */
    predicate AtMostZero() { Finite? && value <= 0.0 }
    /** `x || 0`: NaN becomes 0. */
    function OrZero(): real { if Finite? then value else 0.0 }
  }

  /** The value written as `whole.fraction`. */
  function DecimalValue(whole: string, fraction: string): (r: real)
    requires AllDigits(whole) && AllDigits(fraction)
    ensures r >= 0.0
  {
    var scale := Pow10(|fraction|) as real;
    assert scale >= 1.0;
    DigitsValue(whole) as real + DigitsValue(fraction) as real / scale
  }

  /** `parseFloat` after the sign: the longest `digits [. digits]` prefix of `u`. */
  function ParseUnsigned(u: string): (r: JsNumber)
    ensures r.Finite? ==> r.value >= 0.0
  {
    var whole := LeadingDigits(u);
    var rest := u[|whole|..];
    var fraction := if rest != [] && rest[0] == '.' then LeadingDigits(rest[1..]) else [];
    if whole == [] && fraction == [] then NaN else Finite(DecimalValue(whole, fraction))
  }

  /**
   * `parseFloat(s)`: skip leading white space, an optional sign, then the
   * longest `digits [. digits]` prefix; NaN when that prefix holds no digit.
   */
  function ParseFloat(s: string): JsNumber {
    var t := TrimStart(s);
    if t != [] && t[0] == '-' then
      (match ParseUnsigned(t[1..]) case NaN => NaN case Finite(v) => Finite(-v))
    else if t != [] && t[0] == '+' then ParseUnsigned(t[1..])
    else ParseUnsigned(t)
  }

  /** Without a leading minus sign the parsed number is never negative. */
  lemma ParseFloatUnsigned(s: string)
    requires TrimStart(s) == [] || TrimStart(s)[0] != '-'
    ensures ParseFloat(s).Finite? ==> ParseFloat(s).value >= 0.0
  {
  }

  /** A string starting with a digit always parses to a number. */
  lemma ParseFloatDigitStart(s: string)
    requires s != [] && IsDigit(s[0])
    ensures ParseFloat(s).Finite?
  {
    assert TrimStart(s) == s;
    assert LeadingDigits(s) != [];
  }

  /** A non-empty trimmed string neither starts nor ends with white space. */
  lemma TrimEnds(s: string)
    ensures var t := Trim(s); t != [] ==> !IsSpace(t[0]) && !IsSpace(t[|t| - 1])
  {
    var u := TrimStart(s);
    var t := TrimEnd(u);
    if t != [] {
      assert t[0] == u[0];
    }
  }

  /** Trimming a trimmed string changes nothing. */
  lemma TrimIdempotent(s: string)
    ensures Trim(Trim(s)) == Trim(s)
  {
    var t := Trim(s);
    TrimEnds(s);
    if t != [] {
      assert LeadingSpace(t) == 0;
      assert TrimStart(t) == t;
      assert TrailingSpace(t) == 0;
    }
  }

  /** `s.indexOf(c)` when `c` occurs in `s`. */
  function IndexOf(s: string, c: char): (i: nat)
    requires c in s
    ensures i < |s| && s[i] == c && c !in s[..i]
  {
    if s[0] == c then 0 else 1 + IndexOf(s[1..], c)
  }

  /** `s.split(c)` for a one-character separator. */
  function Split(s: string, c: char): (parts: seq<string>)
    ensures |parts| >= 1
    ensures forall k :: 0 <= k < |parts| ==> c !in parts[k]
    decreases |s|
  {
    if c !in s then [s]
    else
      var i := IndexOf(s, c);
      [s[..i]] + Split(s[i + 1..], c)
  }

  /** `parts.join('')`. */
  function Concat(parts: seq<string>): string {
    if parts == [] then [] else parts[0] + Concat(parts[1..])
  }

  /** `s` with every occurrence of `c` removed. */
  function Remove(s: string, c: char): (r: string)
    ensures c !in r
    ensures |r| <= |s|
  {
    if s == [] then [] else (if s[0] == c then [] else [s[0]]) + Remove(s[1..], c)
  }

  /** The number of occurrences of `c` in `s`. */
  function Count(s: string, c: char): nat {
    if s == [] then 0 else (if s[0] == c then 1 else 0) + Count(s[1..], c)
  }

  lemma {:induction false} RemoveAppend(a: string, b: string, c: char)
    ensures Remove(a + b, c) == Remove(a, c) + Remove(b, c)
  {
    if a == [] {
      assert a + b == b;
    } else {
      var ab := a + b;
      assert ab[0] == a[0];
      assert ab[1..] == a[1..] + b;
      RemoveAppend(a[1..], b, c);
      var h := if a[0] == c then [] else [a[0]];
      assert Remove(ab, c) == h + Remove(ab[1..], c);
      assert Remove(a, c) == h + Remove(a[1..], c);
    }
  }

  lemma {:induction false} CountAppend(a: string, b: string, c: char)
    ensures Count(a + b, c) == Count(a, c) + Count(b, c)
  {
    if a == [] {
      assert a + b == b;
    } else {
      var ab := a + b;
      assert ab[0] == a[0];
      assert ab[1..] == a[1..] + b;
      CountAppend(a[1..], b, c);
    }
  }

  lemma RemoveAbsent(s: string, c: char)
    requires c !in s
    ensures Remove(s, c) == s
  {
  }

  lemma CountAbsent(s: string, c: char)
    requires c !in s
    ensures Count(s, c) == 0
  {
  }

  lemma {:induction false} CountZeroAbsent(s: string, c: char)
    requires Count(s, c) == 0
    ensures c !in s
  {
    if s != [] {
      CountZeroAbsent(s[1..], c);
      assert s == [s[0]] + s[1..];
    }
  }

  /** Splitting at the first separator: the head is the text before it. */
  lemma SplitAtFirst(s: string, c: char)
    requires c in s
    ensures Split(s, c)[0] == s[..IndexOf(s, c)]
    ensures Split(s, c)[1..] == Split(s[IndexOf(s, c) + 1..], c)
  {
  }

  lemma RemoveSeparator(c: char)
    ensures Remove([c], c) == [] && Count([c], c) == 1
  {
    assert [c][1..] == [];
  }

  lemma IndexOfSplits(s: string, c: char)
    requires c in s
    ensures s == s[..IndexOf(s, c)] + ([c] + s[IndexOf(s, c) + 1..])
    ensures c !in s[..IndexOf(s, c)]
  {
    var i := IndexOf(s, c);
    var head, rest := s[..i], s[i..];
    assert rest[0] == c && rest[1..] == s[i + 1..];
    assert rest == [c] + s[i + 1..];
    assert s == head + rest;
  }

  /** Removing the separator around its first occurrence. */
  lemma RemoveAtFirst(s: string, c: char)
    requires c in s
    ensures Remove(s, c) == s[..IndexOf(s, c)] + Remove(s[IndexOf(s, c) + 1..], c)
  {
    var i := IndexOf(s, c);
    var head, tail := s[..i], s[i + 1..];
    IndexOfSplits(s, c);
    RemoveAppend(head, [c] + tail, c);
    RemoveAbsent(head, c);
    RemoveAppend([c], tail, c);
    RemoveSeparator(c);
    assert Remove([c] + tail, c) == Remove(tail, c);
  }

  lemma CountAtFirst(s: string, c: char)
    requires c in s
    ensures Count(s, c) == 1 + Count(s[IndexOf(s, c) + 1..], c)
  {
    var i := IndexOf(s, c);
    var head, tail := s[..i], s[i + 1..];
    IndexOfSplits(s, c);
    CountAppend(head, [c] + tail, c);
    CountAppend([c], tail, c);
    CountAbsent(head, c);
    RemoveSeparator(c);
  }

  /** Joining the pieces of a split gives the string without its separators. */
  lemma {:induction false} ConcatSplit(s: string, c: char)
    ensures Concat(Split(s, c)) == Remove(s, c)
    ensures |Split(s, c)| == Count(s, c) + 1
    decreases |s|
  {
    if c !in s {
      RemoveAbsent(s, c);
      CountAbsent(s, c);
    } else {
      var i := IndexOf(s, c);
      ConcatSplit(s[i + 1..], c);
      SplitAtFirst(s, c);
      RemoveAtFirst(s, c);
      CountAtFirst(s, c);
    }
  }

  // ---------------------------------------------------------------------
  // The default order of `Array.prototype.sort`: strings compared character
  // by character, a proper prefix first.

  predicate Less(a: string, b: string)
    decreases |a|
  {
    if a == [] then b != []
    else if b == [] then false
    else if a[0] != b[0] then a[0] < b[0]
    else Less(a[1..], b[1..])
  }

  lemma {:induction false} LessIrreflexive(a: string)
    ensures !Less(a, a)
    decreases |a|
  {
    if a != [] {
      LessIrreflexive(a[1..]);
    }
  }

  lemma {:induction false} LessTransitive(a: string, b: string, c: string)
    requires Less(a, b) && Less(b, c)
    ensures Less(a, c)
    decreases |a|
  {
    if a != [] && b != [] && c != [] && a[0] == b[0] && b[0] == c[0] {
      LessTransitive(a[1..], b[1..], c[1..]);
    }
  }

  lemma {:induction false} LessTotal(a: string, b: string)
    requires a != b
    ensures Less(a, b) || Less(b, a)
    decreases |a|
  {
    if a != [] && b != [] && a[0] == b[0] {
      assert a == [a[0]] + a[1..] && b == [b[0]] + b[1..];
      LessTotal(a[1..], b[1..]);
    }
  }

  lemma LessAsymmetric(a: string, b: string)
    ensures !(Less(a, b) && Less(b, a))
  {
    LessIrreflexive(a);
    if Less(a, b) && Less(b, a) {
      LessTransitive(a, b, a);
    }
  }

  /** Each element strictly below the next, hence no element twice. */
  predicate StrictlySorted(xs: seq<string>) {
    forall i, j :: 0 <= i < j < |xs| ==> Less(xs[i], xs[j])
  }

  /** Inserting a new element into a strictly sorted list at its place. */
  function Insert(xs: seq<string>, x: string): (r: seq<string>)
    requires StrictlySorted(xs) && x !in xs
    ensures StrictlySorted(r)
    ensures |r| == |xs| + 1
    ensures forall y :: y in r <==> y in xs || y == x
  {
    if xs == [] then [x]
    else if Less(x, xs[0]) then
      assert forall j :: 0 <= j < |xs| ==> Less(x, xs[j]) by {
        forall j | 0 < j < |xs| ensures Less(x, xs[j]) {
          LessTransitive(x, xs[0], xs[j]);
        }
      }
      [x] + xs
    else
      LessTotal(x, xs[0]);
      assert StrictlySorted(xs[1..]) by {
        forall i, j | 0 <= i < j < |xs| - 1 ensures Less(xs[1..][i], xs[1..][j]) {
          assert xs[1..][i] == xs[i + 1] && xs[1..][j] == xs[j + 1];
        }
      }
      var rest := Insert(xs[1..], x);
      assert forall y :: y in rest ==> Less(xs[0], y) by {
        forall y | y in rest ensures Less(xs[0], y) {
          if y != x {
            var j :| 0 <= j < |xs[1..]| && xs[1..][j] == y;
            assert y == xs[j + 1];
          }
        }
      }
      [xs[0]] + rest
  }

  lemma HeadIsLeast(xs: seq<string>, y: string)
    requires StrictlySorted(xs) && y in xs
    ensures y == xs[0] || Less(xs[0], y)
  {
    var j :| 0 <= j < |xs| && xs[j] == y;
    if j != 0 {
      assert Less(xs[0], xs[j]);
    }
  }

  /** A strictly sorted list is determined by its elements. */
  lemma {:induction false} StrictlySortedUnique(xs: seq<string>, ys: seq<string>)
    requires StrictlySorted(xs) && StrictlySorted(ys)
    requires forall y :: y in xs <==> y in ys
    ensures xs == ys
    decreases |xs|
  {
    assert xs != [] ==> xs[0] in ys;
    assert ys != [] ==> ys[0] in xs;
    if xs != [] {
      // both heads are the least element of the same set
      HeadIsLeast(xs, ys[0]);
      HeadIsLeast(ys, xs[0]);
      LessAsymmetric(xs[0], ys[0]);
      assert xs[0] == ys[0];
      var xt, yt := xs[1..], ys[1..];
      assert StrictlySorted(xt) by {
        forall i, j | 0 <= i < j < |xt| ensures Less(xt[i], xt[j]) {
          assert xt[i] == xs[i + 1] && xt[j] == xs[j + 1];
        }
      }
      assert StrictlySorted(yt) by {
        forall i, j | 0 <= i < j < |yt| ensures Less(yt[i], yt[j]) {
          assert yt[i] == ys[i + 1] && yt[j] == ys[j + 1];
        }
      }
      forall y ensures y in xt <==> y in yt {
        if y in xt {
          var i :| 0 <= i < |xt| && xt[i] == y;
          assert Less(xs[0], xs[i + 1]) && xs[i + 1] in xs;
          LessIrreflexive(y);
          assert y in ys && y != ys[0];
          var k :| 0 <= k < |ys| && ys[k] == y;
          assert k != 0 && yt[k - 1] == y;
        }
        if y in yt {
          var i :| 0 <= i < |yt| && yt[i] == y;
          assert Less(ys[0], ys[i + 1]) && ys[i + 1] in ys;
          LessIrreflexive(y);
          assert y in xs && y != xs[0];
          var k :| 0 <= k < |xs| && xs[k] == y;
          assert k != 0 && xt[k - 1] == y;
        }
      }
      StrictlySortedUnique(xt, yt);
      assert xs == [xs[0]] + xt && ys == [ys[0]] + yt;
    }
  }
}
