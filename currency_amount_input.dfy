/**
 * The amount text field: the sanitiser applied to every keystroke, the
 * state it updates, and the guard on the formatted preview.
 */
module CurrencyAmountInput {
  import opened Common
  import opened JsText

  predicate IsAmountChar(c: char) {
    IsDigit(c) || c == '.'
  }

  predicate AllAmountChars(s: string) {
    forall i :: 0 <= i < |s| ==> IsAmountChar(s[i])
  }

  /** `text.replace(/[^0-9.]/g, '')`. */
  function Clean(t: string): (r: string)
    ensures AllAmountChars(r)
  {
    if t == [] then [] else (if IsAmountChar(t[0]) then [t[0]] else []) + Clean(t[1..])
  }

  /** The digits of a string, in order. */
  function Digits(t: string): string {
    if t == [] then [] else (if IsDigit(t[0]) then [t[0]] else []) + Digits(t[1..])
  }

  /** The handler as written: split on '.', and rejoin when there are more than two parts. */
  function Sanitize(text: string): string {
    var cleanText := Clean(text);
    var parts := Split(cleanText, '.');
    if |parts| > 2 then parts[0] + "." + Concat(parts[1..]) else cleanText
  }

  /** The intended reading: keep the first '.' and drop every later one. */
  function KeepFirstDot(s: string): string {
    if s == [] then []
    else if s[0] == '.' then "." + Remove(s[1..], '.')
    else [s[0]] + KeepFirstDot(s[1..])
  }

  /** The dot rule keeps the text before the first '.', the '.', and the rest without dots. */
  lemma {:induction false} KeepFirstDotSplit(s: string)
    requires '.' in s
    ensures KeepFirstDot(s) == s[..IndexOf(s, '.')] + "." + Remove(s[IndexOf(s, '.') + 1..], '.')
  {
    if s[0] != '.' {
      var t := s[1..];
      assert '.' in t by {
        assert t[IndexOf(s, '.') - 1] == '.';
      }
      KeepFirstDotSplit(t);
      var j := IndexOf(t, '.');
      var r := Remove(t[j + 1..], '.');
      assert IndexOf(s, '.') == j + 1;
      assert s[..j + 1] == [s[0]] + t[..j];
      assert s[j + 2..] == t[j + 1..];
      assert [s[0]] + (t[..j] + "." + r) == [s[0]] + t[..j] + "." + r;
    } else {
      assert IndexOf(s, '.') == 0 && s[..0] == [];
    }
  }

  /** The split/join of the handler keeps the first '.' and removes the others. */
  lemma SanitizeKeepsFirstDot(text: string)
    ensures Sanitize(text) == KeepFirstDot(Clean(text))
  {
    var c := Clean(text);
    if '.' in c && |Split(c, '.')| > 2 {
      SplitManyDots(c);
    } else {
      if '.' in c { ConcatSplit(c, '.'); } else { CountAbsent(c, '.'); }
      KeepFirstDotIdentity(c);
    }
  }

  /** With two dots or more the rejoined parts are the text before the first dot, a dot, and the rest without dots. */
  lemma SplitManyDots(c: string)
    requires '.' in c
    ensures var parts := Split(c, '.'); parts[0] + "." + Concat(parts[1..]) == KeepFirstDot(c)
  {
    SplitAtFirst(c, '.');
    ConcatSplit(c[IndexOf(c, '.') + 1..], '.');
    KeepFirstDotSplit(c);
  }

  lemma DigitsCons(x: char, rest: string)
    ensures Digits([x] + rest) == (if IsDigit(x) then [x] else []) + Digits(rest)
  {
    assert ([x] + rest)[1..] == rest;
  }

  /** Cleaning keeps every digit, in order. */
  lemma {:induction false} CleanKeepsDigits(t: string)
    ensures Digits(Clean(t)) == Digits(t)
  {
    if t != [] {
      CleanKeepsDigits(t[1..]);
      if IsAmountChar(t[0]) {
        DigitsCons(t[0], Clean(t[1..]));
      } else {
        assert Clean(t) == Clean(t[1..]);
      }
    }
  }

  /** Removing the dots keeps every digit, in order. */
  lemma {:induction false} RemoveDotKeepsDigits(t: string)
    ensures Digits(Remove(t, '.')) == Digits(t)
  {
    if t != [] {
      RemoveDotKeepsDigits(t[1..]);
      if t[0] != '.' {
        DigitsCons(t[0], Remove(t[1..], '.'));
      } else {
        assert Remove(t, '.') == Remove(t[1..], '.');
      }
    }
  }

  /** Cleaning text that holds only digits and dots changes nothing. */
  lemma {:induction false} CleanIdentity(s: string)
    requires AllAmountChars(s)
    ensures Clean(s) == s
  {
    if s != [] {
      CleanIdentity(s[1..]);
      assert s == [s[0]] + s[1..];
    }
  }

  lemma {:induction false} RemoveKeepsAmountChars(s: string)
    requires AllAmountChars(s)
    ensures AllAmountChars(Remove(s, '.'))
  {
    if s != [] {
      RemoveKeepsAmountChars(s[1..]);
      var head := if s[0] == '.' then [] else [s[0]];
      var r := head + Remove(s[1..], '.');
      forall k | 0 <= k < |r| ensures IsAmountChar(r[k]) {
        if k < |head| { assert r[k] == s[0]; } else { assert r[k] == Remove(s[1..], '.')[k - |head|]; }
      }
    }
  }

  /**
   * The sanitised text holds only digits and '.', at most one '.', and the
   * input's digits in their order and number.
   */
  lemma SanitizeShape(text: string)
    ensures AllAmountChars(Sanitize(text))
    ensures Count(Sanitize(text), '.') <= 1
    ensures Digits(Sanitize(text)) == Digits(text)
  {
    SanitizeKeepsFirstDot(text);
    var c := Clean(text);
    CleanKeepsDigits(text);
    KeepFirstDotChars(c);
    KeepFirstDotCount(c);
    KeepFirstDotDigits(c);
  }

  lemma {:induction false} KeepFirstDotChars(s: string)
    requires AllAmountChars(s)
    ensures AllAmountChars(KeepFirstDot(s))
  {
    if s != [] {
      var t := s[1..];
      assert AllAmountChars(t) by {
        forall k | 0 <= k < |t| ensures IsAmountChar(t[k]) { assert t[k] == s[k + 1]; }
      }
      var head, tail := if s[0] == '.' then "." else [s[0]], if s[0] == '.' then Remove(t, '.') else KeepFirstDot(t);
      if s[0] == '.' { RemoveKeepsAmountChars(t); } else { KeepFirstDotChars(t); }
      assert KeepFirstDot(s) == head + tail;
      AmountCharsAppend(head, tail);
    }
  }

  lemma AmountCharsAppend(a: string, b: string)
    requires AllAmountChars(a) && AllAmountChars(b)
    ensures AllAmountChars(a + b)
  {
    forall k | 0 <= k < |a + b| ensures IsAmountChar((a + b)[k]) {
      if k >= |a| { assert (a + b)[k] == b[k - |a|]; }
    }
  }

  lemma {:induction false} KeepFirstDotCount(s: string)
    ensures Count(KeepFirstDot(s), '.') <= 1
  {
    if s != [] {
      var k := KeepFirstDot(s);
      assert k[0] == s[0];
      if s[0] == '.' {
        var r := Remove(s[1..], '.');
        assert k[1..] == r;
        CountAbsent(r, '.');
      } else {
        KeepFirstDotCount(s[1..]);
        assert k[1..] == KeepFirstDot(s[1..]);
      }
    }
  }

  lemma {:induction false} KeepFirstDotDigits(s: string)
    ensures Digits(KeepFirstDot(s)) == Digits(s)
  {
    if s != [] {
      var k := KeepFirstDot(s);
      assert k[0] == s[0];
      if s[0] == '.' {
        assert k[1..] == Remove(s[1..], '.');
        RemoveDotKeepsDigits(s[1..]);
      } else {
        KeepFirstDotDigits(s[1..]);
        assert k[1..] == KeepFirstDot(s[1..]);
      }
    }
  }

  /** A text with at most one dot is left alone by the dot rule. */
  lemma {:induction false} KeepFirstDotIdentity(s: string)
    requires Count(s, '.') <= 1
    ensures KeepFirstDot(s) == s
  {
    if s != [] {
      var t := s[1..];
      assert s == [s[0]] + t;
      if s[0] == '.' {
        CountZeroAbsent(t, '.');
        RemoveAbsent(t, '.');
      } else {
        KeepFirstDotIdentity(t);
      }
    }
  }

  /** Sanitising twice is sanitising once. */
  lemma SanitizeIdempotent(text: string)
    ensures Sanitize(Sanitize(text)) == Sanitize(text)
  {
    var s := Sanitize(text);
    SanitizeShape(text);
    SanitizeKeepsFirstDot(s);
    CleanIdentity(s);
    KeepFirstDotIdentity(s);
  }

  /** Sanitised text has no sign, so it never parses to a negative number. */
  lemma SanitizedNeverNegative(text: string)
    ensures ParseFloat(Sanitize(text)).Finite? ==> ParseFloat(Sanitize(text)).value >= 0.0
  {
    var s := Sanitize(text);
    SanitizeShape(text);
    if s != [] {
      assert IsAmountChar(s[0]);
      assert TrimStart(s) == s;
    }
    ParseFloatUnsigned(s);
  }

  /**
   * `parseFloat(displayValue) || 0` when it is positive: the preview is
   * shown only for a positive amount, and unparsable text counts as 0.
   */
  function PreviewAmount(displayValue: string): (r: Option<real>)
    ensures r.Some? <==> ParseFloat(displayValue).Positive()
    ensures r.Some? ==> r.value > 0.0 && r.value == ParseFloat(displayValue).value
  {
    var numericValue := ParseFloat(displayValue).OrZero();
    if numericValue > 0.0 then Some(numericValue) else None
  }

  class AmountInput {
    var displayValue: string
    var currentSymbol: string
    /** Every value handed to `onChangeText`, oldest first. */
    var emitted: seq<string>

    constructor (value: string, symbol: string)
      ensures displayValue == value && currentSymbol == symbol && emitted == []
    {
      displayValue := value;
      currentSymbol := symbol;
      emitted := [];
    }

    /** `handleTextChange`: the same sanitised text is shown and reported. */
    method HandleTextChange(text: string)
      modifies this
      ensures displayValue == Sanitize(text)
      ensures emitted == old(emitted) + [displayValue]
      ensures currentSymbol == old(currentSymbol)
    {
      var cleanText := Clean(text);
      var parts := Split(cleanText, '.');
      var formattedText := if |parts| > 2 then parts[0] + "." + Concat(parts[1..]) else cleanText;
      displayValue := formattedText;
      emitted := emitted + [formattedText];
    }

    /** The parent's `value` prop changed. */
    method SetValue(value: string)
      modifies this
      ensures displayValue == value && emitted == old(emitted) && currentSymbol == old(currentSymbol)
    {
      displayValue := value;
    }

    /** A currency was picked, or the selected currency changed. */
    method SetSymbol(symbol: string)
      modifies this
      ensures currentSymbol == symbol && displayValue == old(displayValue) && emitted == old(emitted)
    {
      currentSymbol := symbol;
    }
  }
}
