// The .NET string operations the core relies on: char.IsWhiteSpace,
// string.IsNullOrWhiteSpace, invariant case mapping, ordinal and
// ordinal-ignore-case containment, and int.ToString / int.TryParse.

module Text {
  import opened Wrappers

  /** `char.IsWhiteSpace`: the Unicode space separators plus the control characters it lists. */
  predicate IsWhiteSpace(c: char)
  {
    c == ' ' || ('\t' <= c <= '\r') || c == '\U{0085}' || c == '\U{00A0}' || c == '\U{1680}'
    || ('\U{2000}' <= c <= '\U{200A}') || c == '\U{2028}' || c == '\U{2029}' || c == '\U{202F}'
    || c == '\U{205F}' || c == '\U{3000}'
  }

  /**
   * `string.IsNullOrWhiteSpace`: null, empty, or nothing but white space.
   * A nullable string is an `Option<string>`.
   */
  predicate IsNullOrWhiteSpace(s: Option<string>)
  {
    s.None? || forall i :: 0 <= i < |s.value| ==> IsWhiteSpace(s.value[i])
  }

  /** A string holds a character that is not white space exactly when it is not null-or-white-space. */
  lemma NotBlankWitness(s: string, k: nat)
    requires k < |s| && !IsWhiteSpace(s[k])
    ensures !IsNullOrWhiteSpace(Some(s))
  {
  }

  /**
   * Invariant lower-casing of one character: ASCII, Latin-1 and the Turkish
   * letters with a distinct capital (Ğ, Ş); every other character maps to itself.
   */
  function LowerChar(c: char): (d: char)
  {
    if 'A' <= c <= 'Z' || ('À' <= c <= 'Þ' && c != '×') then (c as int + 32) as char
    else if c == 'Ğ' || c == 'Ş' then (c as int + 1) as char
    else c
  }

  /**
   * Invariant upper-casing of one character, the mapping ordinal-ignore-case
   * comparison folds by. The dotless ı is left as it is, as .NET's invariant
   * and ordinal casing leave it.
   */
  function UpperChar(c: char): (d: char)
  {
    if 'a' <= c <= 'z' || ('à' <= c <= 'þ' && c != '÷') then (c as int - 32) as char
    else if c == 'ÿ' then 'Ÿ'
    else if c == 'ğ' || c == 'ş' then (c as int - 1) as char
    else c
  }

  /** `ToLowerInvariant` / SQL `LOWER`: the character-wise lower-casing of a string. */
  function ToLower(s: string): (r: string)
    ensures |r| == |s| && forall i :: 0 <= i < |s| ==> r[i] == LowerChar(s[i])
  {
    seq(|s|, i requires 0 <= i < |s| => LowerChar(s[i]))
  }

  /** `ToUpperInvariant`: the character-wise upper-casing of a string. */
  function ToUpper(s: string): (r: string)
    ensures |r| == |s| && forall i :: 0 <= i < |s| ==> r[i] == UpperChar(s[i])
  {
    seq(|s|, i requires 0 <= i < |s| => UpperChar(s[i]))
  }

  /** Lower-casing twice is lower-casing once, so a stored lower-cased e-mail compares equal to its own lower-casing. */
  lemma LowerIdempotent(s: string)
    ensures ToLower(ToLower(s)) == ToLower(s)
  {
    forall i | 0 <= i < |s| ensures LowerChar(LowerChar(s[i])) == LowerChar(s[i]) {
    }
  }

  /** `sub` occurs in `s` at position `k`. */
  predicate OccursAt(s: string, sub: string, k: int)
  {
    0 <= k && k + |sub| <= |s| && s[k..k + |sub|] == sub
  }

  /** Ordinal `string.Contains`: some position of `s` starts a copy of `sub`. */
  predicate Contains(s: string, sub: string)
  {
    exists k :: 0 <= k <= |s| && OccursAt(s, sub, k)
  }

  /** `Contains(sub, StringComparison.OrdinalIgnoreCase)`: containment after invariant upper-casing. */
  predicate ContainsIgnoreCase(s: string, sub: string)
  {
    Contains(ToUpper(s), ToUpper(sub))
  }

  /** Ordinal search, first occurrence; the loop-free reference for `Contains`. */
  function IndexOf(s: string, sub: string, from: nat): (r: Option<nat>)
    requires from <= |s|
    decreases |s| - from
    ensures r.Some? ==> from <= r.value && OccursAt(s, sub, r.value)
    ensures r.None? ==> forall k :: from <= k <= |s| ==> !OccursAt(s, sub, k)
  {
    if OccursAt(s, sub, from) then Some(from)
    else if from == |s| then None
    else IndexOf(s, sub, from + 1)
  }

  /** `Contains` holds exactly when the first-occurrence search finds something. */
  lemma ContainsIffFound(s: string, sub: string)
    ensures Contains(s, sub) <==> IndexOf(s, sub, 0).Some?
  {
    var r := IndexOf(s, sub, 0);
    if r.Some? {
      assert OccursAt(s, sub, r.value);
    }
  }

  /** A string contains itself inside any surrounding text, whatever the case of either. */
  lemma ContainsIgnoreCaseConcat(a: string, sub: string, b: string)
    ensures ContainsIgnoreCase(a + sub + b, sub)
  {
    var s := a + sub + b;
    var u := ToUpper(s);
    assert u[|a|..|a| + |sub|] == ToUpper(sub);
    assert OccursAt(u, ToUpper(sub), |a|);
  }

  /** The decimal digit for `d`. */
  function DigitChar(d: int): (c: char)
    requires 0 <= d < 10
    ensures '0' <= c <= '9' && c as int - '0' as int == d
  {
    (d + '0' as int) as char
  }

  /** The digits of a natural number, most significant first, without leading zeros. */
  function NatDigits(n: nat): (r: string)
    decreases n
    ensures |r| > 0 && forall i :: 0 <= i < |r| ==> '0' <= r[i] <= '9'
    ensures |r| > 1 ==> r[0] != '0'
  {
    if n < 10 then [DigitChar(n)] else NatDigits(n / 10) + [DigitChar(n % 10)]
  }

  /** `int.ToString()` in the invariant culture: an optional minus sign and the digits. */
  function IntToString(n: int): (r: string)
  {
    if n < 0 then "-" + NatDigits(-n) else NatDigits(n)
  }

  /** An amount in hundredths written with two decimals and a '.' separator, as the invariant culture formats a decimal(18, 2). */
  function MoneyText(hundredths: int): (r: string)
  {
    var n := if hundredths < 0 then -hundredths else hundredths;
    (if hundredths < 0 then "-" else "") + NatDigits(n / 100) + "." + [DigitChar(n % 100 / 10), DigitChar(n % 10)]
  }

  /** The value of a non-empty run of decimal digits. */
  function DigitsValue(s: string): (n: nat)
    requires forall i :: 0 <= i < |s| ==> '0' <= s[i] <= '9'
  {
    if s == [] then 0 else 10 * DigitsValue(s[..|s| - 1]) + (s[|s| - 1] as int - '0' as int)
  }

  /** `int.TryParse` on an invariant-culture integer: an optional '-' followed by at least one digit. */
  function ParseInt(s: string): (r: Option<int>)
  {
    if |s| > 0 && s[0] == '-' then
      var t := s[1..];
      if |t| > 0 && forall i :: 0 <= i < |t| ==> '0' <= t[i] <= '9' then Some(0 - DigitsValue(t) as int) else None
    else if |s| > 0 && forall i :: 0 <= i < |s| ==> '0' <= s[i] <= '9' then Some(DigitsValue(s) as int)
    else None
  }

  lemma {:induction false} DigitsRoundTrip(n: nat)
    ensures DigitsValue(NatDigits(n)) == n
  {
    if n >= 10 {
      var p := NatDigits(n / 10);
      var s := p + [DigitChar(n % 10)];
      assert s[..|s| - 1] == p;
      DigitsRoundTrip(n / 10);
    }
  }

  /**
   * The user id written into an authentication response by `ToString()`
   * reads back as the same id with `int.TryParse`.
   */
  lemma IntRoundTrip(n: int)
    ensures ParseInt(IntToString(n)) == Some(n)
  {
    if n < 0 {
      NegativeRoundTrip(-n);
    } else {
      var s := NatDigits(n);
      assert s[0] != '-';
      DigitsRoundTrip(n);
    }
  }

  /** A minus sign followed by the digits of `m` reads back as `-m`. */
  lemma NegativeRoundTrip(m: nat)
    requires m > 0
    ensures ParseInt("-" + NatDigits(m)) == Some(-(m as int))
  {
    var d := NatDigits(m);
    var s := "-" + d;
    assert s[0] == '-' && s[1..] == d;
    DigitsRoundTrip(m);
  }
}
