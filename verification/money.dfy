/**
 Exact money: checked int64 arithmetic, the decimal parser and its printer
 (internal/domain/money/money.go).
 */
module DomainMoney {
  import opened Wrappers
  import opened Apperr

  const MAX_INT64: int := 0x7FFF_FFFF_FFFF_FFFF
  const MIN_INT64: int := -MAX_INT64 - 1

  type int64 = n: int | MIN_INT64 <= n <= MAX_INT64

  predicate Fits(n: int) {
    MIN_INT64 <= n <= MAX_INT64
  }

  const SCALE: int64 := 100

  predicate IsCurrency(s: string) {
    |s| == 3 && forall i | 0 <= i < 3 :: 'A' <= s[i] <= 'Z'
  }

  /** A currency as normalizeCurrency leaves it: three upper-case letters. */
  type Currency = s: string | IsCurrency(s) witness "BRL"

  /** Go's integer division and remainder truncate toward zero. */
  function GoDiv(a: int, b: int): int
    requires b != 0
  {
    if (a < 0) == (b < 0) then Abs(a) / Abs(b) else -(Abs(a) / Abs(b))
  }

  function GoMod(a: int, b: int): int
    requires b != 0
  {
    a - b * GoDiv(a, b)
  }

  function Abs(a: int): nat {
    if a < 0 then -a else a
  }

  // ----- checked arithmetic -----

  /** The subset type makes Dafny check that the guards themselves stay in int64. */
  function AddChecked(a: int64, b: int64): (r: Result<int64, Error>)
    ensures r == if Fits(a + b) then Success(a + b) else Failure(Domain(InvalidAmount))
  {
    if b > 0 && (var room: int64 := MAX_INT64 - b; a > room) then
      Failure(Domain(InvalidAmount))
    else if b < 0 && (var room: int64 := MIN_INT64 - b; a < room) then
      Failure(Domain(InvalidAmount))
    else
      Success(a + b)
  }

  function SubChecked(a: int64, b: int64): (r: Result<int64, Error>)
    ensures r == if Fits(a - b) then Success(a - b) else Failure(Domain(InvalidAmount))
  {
    if b > 0 && (var room: int64 := MIN_INT64 + b; a < room) then
      Failure(Domain(InvalidAmount))
    else if b < 0 && (var room: int64 := MAX_INT64 + b; a > room) then
      Failure(Domain(InvalidAmount))
    else
      Success(a - b)
  }

  /**
   Multiplication as the source branches on signs. The contract is exact: it fails on
   every product outside int64 and, of those that fit, only on MIN_INT64 written as a
   positive number above one times a negative one.
   */
  function MulChecked(a: int64, b: int64): (r: Result<int64, Error>)
    ensures r.Success? <==> Fits(a * b) && !(a > 1 && b < 0 && a * b == MIN_INT64)
    ensures r.Success? ==> r.value == a * b
    ensures r.Failure? ==> r.error == Domain(InvalidAmount)
  {
    MulFits(a, b);
    if a == 0 || b == 0 then
      Success(0)
    else if a == MIN_INT64 || b == MIN_INT64 then
      if a == 1 || b == 1 then Success(MIN_INT64) else Failure(Domain(InvalidAmount))
    else if a > 0 then
      if b > 0 then
        if a > GoDiv(MAX_INT64, b) then Failure(Domain(InvalidAmount)) else Success(a * b)
      else
        if b < GoDiv(MAX_INT64, -a) then Failure(Domain(InvalidAmount)) else Success(a * b)
    else
      if b > 0 then
        if a < GoDiv(MIN_INT64, b) then Failure(Domain(InvalidAmount)) else Success(a * b)
      else
        if b < GoDiv(MAX_INT64, a) then Failure(Domain(InvalidAmount)) else Success(a * b)
  }

  /** The minimum is refused written as 2 times -2^62, and found written the other way round. */
  lemma MulMissesMinimum()
    ensures 2 * -0x4000_0000_0000_0000 == MIN_INT64 && MulChecked(2, -0x4000_0000_0000_0000).Failure?
    ensures MulChecked(-0x4000_0000_0000_0000, 2) == Success(MIN_INT64)
  {
  }

  /** x * y stays within a bound exactly when x stays within the bound divided by y. */
  lemma DivBound(x: nat, y: int, bound: nat)
    requires y > 0
    ensures x * y <= bound <==> x <= bound / y
  {
    var q := bound / y;
    assert bound == q * y + bound % y;
    if x <= q {
      assert x * y <= q * y;
    } else {
      assert (q + 1) * y <= x * y;
    }
  }

  /** The four sign cases of the guards of MulChecked, reduced to absolute values. */
  lemma MulFits(a: int, b: int)
    requires Fits(a) && Fits(b)
    ensures a > 0 && b > 0 ==> (a > GoDiv(MAX_INT64, b) <==> a * b > MAX_INT64)
    ensures a > 0 && b < 0 ==> (b < GoDiv(MAX_INT64, -a) <==> a * b < -MAX_INT64)
    ensures a < 0 && b > 0 ==> (a < GoDiv(MIN_INT64, b) <==> a * b < MIN_INT64)
    ensures a < 0 && b < 0 ==> (b < GoDiv(MAX_INT64, a) <==> a * b > MAX_INT64)
    ensures a > 1 && b == MIN_INT64 ==> a * b < MIN_INT64
    ensures b > 1 && a == MIN_INT64 ==> a * b < MIN_INT64
    ensures a < 0 && b == MIN_INT64 ==> a * b > MAX_INT64
    ensures b < 0 && a == MIN_INT64 ==> a * b > MAX_INT64
    ensures a > 0 && b > 0 ==> a * b > 0
    ensures a > 0 && b < 0 ==> a * b < 0
    ensures a < 0 && b > 0 ==> a * b < 0
    ensures a < 0 && b < 0 ==> a * b > 0
  {
    assert a * b == (-a) * (-b);
    assert a * b == -(a * -b) == -((-a) * b);
    if a != 0 && b != 0 {
      DivBound(Abs(a), Abs(b), MAX_INT64);
      DivBound(Abs(b), Abs(a), MAX_INT64);
      DivBound(Abs(a), Abs(b), MAX_INT64 + 1);
      MulGrows(Abs(a), Abs(b));
      MulGrows(Abs(b), Abs(a));
    }
  }

  lemma MulGrows(x: int, y: int)
    requires x >= 1 && y >= 1
    ensures x * y >= y
    ensures x > 1 ==> x * y > y
  {
    assert (x - 1) * y >= 0;
    if x > 1 {
      assert (x - 2) * y >= 0;
    }
  }

  // ----- the value object -----

  datatype Money = Money(amountMinor: int64, currency: Currency) {

    predicate IsZero() {
      amountMinor == 0
    }

    predicate IsPositive() {
      amountMinor > 0
    }

    predicate IsNegative() {
      amountMinor < 0
    }

    /** Adds exactly, or refuses a foreign currency or a sum outside int64. */
    function Add(other: Money): (r: Result<Money, Error>)
      ensures r.Success? <==> currency == other.currency && Fits(amountMinor + other.amountMinor)
      ensures r.Success? ==> r.value.amountMinor == amountMinor + other.amountMinor && r.value.currency == currency
      ensures r.Failure? ==>
        r.error == Domain(if currency != other.currency then CurrencyMismatch else InvalidAmount)
    {
      if currency != other.currency then
        Failure(Domain(CurrencyMismatch))
      else
        var sum :- AddChecked(amountMinor, other.amountMinor);
        Success(Money(sum, currency))
    }

    /** Subtracts exactly, or refuses a foreign currency or a difference outside int64. */
    function Sub(other: Money): (r: Result<Money, Error>)
      ensures r.Success? <==> currency == other.currency && Fits(amountMinor - other.amountMinor)
      ensures r.Success? ==> r.value.amountMinor == amountMinor - other.amountMinor && r.value.currency == currency
      ensures r.Failure? ==>
        r.error == Domain(if currency != other.currency then CurrencyMismatch else InvalidAmount)
    {
      if currency != other.currency then
        Failure(Domain(CurrencyMismatch))
      else
        var diff :- SubChecked(amountMinor, other.amountMinor);
        Success(Money(diff, currency))
    }
  }

  // ----- the printer -----

  const DIGITS: string := "0123456789"

  /** The decimal digits of n, as %d prints a non-negative number. */
  function Decimal(n: nat): (s: string)
    ensures |s| > 0 && AllDigits(s) && Numeral(s) == n
    ensures n > 0 ==> s[0] != '0'
  {
    if n < 10 then
      [DIGITS[n]]
    else
      var front := Decimal(n / 10);
      assert (front + [DIGITS[n % 10]])[..|front|] == front;
      front + [DIGITS[n % 10]]
  }

  /** %d. */
  function PrintInt(n: int): string {
    if n < 0 then "-" + Decimal(-n) else Decimal(n)
  }

  /** %02d: at least two characters, zero-padded, the sign included in the width. */
  function PrintTwo(n: int): string {
    if 0 <= n < 10 then "0" + Decimal(n) else PrintInt(n)
  }

  /** Two's-complement negation: the minimum is its own negation. */
  function WrappingNeg(n: int64): int64 {
    if n == MIN_INT64 then n else -n
  }

  function Format(minor: int64): string {
    var v := if minor < 0 then WrappingNeg(minor) else minor;
    (if minor < 0 then "-" else "") + PrintInt(GoDiv(v, SCALE)) + "." + PrintTwo(GoMod(v, SCALE))
  }

  // ----- what an amount is -----

  predicate IsDigit(c: char) {
    '0' <= c <= '9'
  }

  predicate AllDigits(s: string) {
    forall i | 0 <= i < |s| :: IsDigit(s[i])
  }

  /** The number a string of digits denotes; other characters count as written by the code, c - '0'. */
  function Numeral(s: string): (n: int)
    ensures AllDigits(s) ==> n >= 0
  {
    if s == "" then 0
    else Numeral(s[..|s| - 1]) * 10 + (s[|s| - 1] as int - '0' as int)
  }

  /** How many digits s starts with. */
  function Lead(s: string): (k: nat)
    ensures k <= |s| && AllDigits(s[..k]) && (k < |s| ==> !IsDigit(s[k]))
  {
    if s == "" || !IsDigit(s[0]) then 0 else 1 + Lead(s[1..])
  }

  /** One or more digits, then optionally a dot and zero to two digits. */
  predicate IsAmount(s: string) {
    var k := Lead(s);
    k > 0 && (k == |s| || (s[k] == '.' && |s| - k - 1 <= 2 && AllDigits(s[k + 1..])))
  }

  /** The amount in minor units: the digits before the dot, then the fraction scaled to hundredths. */
  function MinorValue(s: string): (n: int)
    requires IsAmount(s)
    ensures n >= 0
  {
    var k := Lead(s);
    Numeral(s[..k]) * 100 + Padded(if k == |s| then "" else s[k + 1..], 2)
  }

  /** The numeral s becomes once zeros fill it up to the given width. */
  function Padded(s: string, width: nat): (n: int)
    ensures AllDigits(s) ==> n >= 0
    decreases width - |s|
  {
    if width <= |s| then Numeral(s) else Padded(s, width - 1) * 10
  }

  /** The amounts the parser must accept, and what it must return for them. */
  function ParsedMinor(s: string): Result<int64, Error> {
    if IsAmount(s) && MinorValue(s) <= MAX_INT64
    then Success(MinorValue(s))
    else Failure(Domain(InvalidAmount))
  }

  // ----- the parser -----

  /** strings.Split on a dot. */
  function SplitDot(s: string): (parts: seq<string>)
    ensures |parts| >= 1
    ensures |parts| == 1 <==> '.' !in s
  {
    if s == "" then [""]
    else if s[0] == '.' then [""] + SplitDot(s[1..])
    else
      var rest := SplitDot(s[1..]);
      [[s[0]] + rest[0]] + rest[1..]
  }

  /** The first part ends at the first dot, and a second part is all of the rest if no other dot follows. */
  ghost predicate PartsOf(s: string, parts: seq<string>) {
    && |parts| >= 1 && (|parts| == 1 <==> '.' !in s)
    && if |parts| == 1 then parts[0] == s
       else
         var k := |parts[0]|;
         && k < |s| && s[..k] == parts[0] && s[k] == '.' && '.' !in parts[0]
         && (|parts| == 2 <==> '.' !in s[k + 1..])
         && (|parts| == 2 ==> parts[1] == s[k + 1..])
  }

  lemma PartsAfterDot(rest: string, parts: seq<string>)
    requires PartsOf(rest, parts)
    ensures PartsOf("." + rest, [""] + parts)
  {
    assert ("." + rest)[1..] == rest;
  }

  lemma PartsAfterChar(c: char, rest: string, parts: seq<string>)
    requires PartsOf(rest, parts) && c != '.'
    ensures PartsOf([c] + rest, [[c] + parts[0]] + parts[1..])
  {
    var s := [c] + rest;
    if |parts| >= 2 {
      var k := |parts[0]|;
      assert s[..k + 1] == [c] + rest[..k];
      assert s[k + 2..] == rest[k + 1..];
    }
  }

  /** The parts before and after the dot are those the grammar speaks about. */
  lemma {:induction false} SplitDotParts(s: string)
    ensures PartsOf(s, SplitDot(s))
  {
    if s != "" {
      hide PartsOf;
      SplitDotParts(s[1..]);
      assert s == [s[0]] + s[1..];
      if s[0] == '.' {
        PartsAfterDot(s[1..], SplitDot(s[1..]));
      } else {
        PartsAfterChar(s[0], s[1..], SplitDot(s[1..]));
      }
    }
  }

  /** Digits up to the first character that is none is exactly what Lead measures. */
  lemma {:induction false} LeadIs(s: string, k: nat)
    requires k <= |s| && AllDigits(s[..k]) && (k < |s| ==> !IsDigit(s[k]))
    ensures Lead(s) == k
    decreases k
  {
    if k > 0 {
      assert s[..k][0] == s[0];
      assert s[1..][..k - 1] == s[..k][1..];
      LeadIs(s[1..], k - 1);
    }
  }

  /** An amount holds nothing but digits and one dot. */
  lemma AmountCharacters(s: string)
    ensures IsAmount(s) ==> forall i | 0 <= i < |s| :: IsDigit(s[i]) || s[i] == '.'
    ensures IsAmount(s) ==> '.' !in s[..Lead(s)] && (Lead(s) < |s| ==> '.' !in s[Lead(s) + 1..])
  {
    if IsAmount(s) {
      var k := Lead(s);
      forall i | 0 <= i < |s|
        ensures IsDigit(s[i]) || s[i] == '.'
      {
        if i < k {
          assert IsDigit(s[..k][i]);
        } else if k < i {
          assert IsDigit(s[k + 1..][i - k - 1]);
        }
      }
    }
  }

  /** A text is split at its first dot. */
  lemma {:induction false} SplitAt(s: string, k: nat)
    requires k < |s| && s[k] == '.' && '.' !in s[..k]
    ensures SplitDot(s) == [s[..k]] + SplitDot(s[k + 1..])
    decreases k
  {
    if k == 0 {
      assert s[..0] == "";
    } else {
      assert s[0] == s[..k][0];
      assert '.' !in s[1..][..k - 1] by {
        assert s[1..][..k - 1] == s[..k][1..];
      }
      SplitAt(s[1..], k - 1);
      assert s[1..][k..] == s[k + 1..];
      assert s[..k] == [s[0]] + s[1..][..k - 1];
    }
  }

  /** The tests the parser makes on the parts of the split. */
  predicate GoodParts(parts: seq<string>) {
    0 < |parts| <= 2 && parts[0] != "" && AllDigits(parts[0]) && |Fraction(parts)| <= 2 && AllDigits(Fraction(parts))
  }

  function Fraction(parts: seq<string>): string {
    if |parts| == 2 then parts[1] else ""
  }

  /** Those tests are the grammar, and the parts are the numbers it speaks about. */
  lemma AmountFromParts(s: string)
    ensures IsAmount(s) <==> GoodParts(SplitDot(s))
    ensures IsAmount(s) ==>
      MinorValue(s) == Numeral(SplitDot(s)[0]) * 100 + Padded(Fraction(SplitDot(s)), 2)
  {
    SplitDotParts(s);
    var parts := SplitDot(s);
    var k := |parts[0]|;
    if |parts| <= 2 && AllDigits(parts[0]) {
      assert s[..k] == parts[0];
      LeadIs(s, k);
    }
    if IsAmount(s) {
      AmountCharacters(s);
      var l := Lead(s);
      if l < |s| {
        SplitAt(s, l);
        SplitDotParts(s[l + 1..]);
      } else {
        assert s[..l] == s;
      }
    }
  }

  /** A character that is neither a digit nor a dot makes the parser fail. */
  lemma BadCharacter(s: string, i: nat)
    requires i < |s| && !IsDigit(s[i]) && s[i] != '.'
    ensures ParsedMinor(s) == Failure(Domain(InvalidAmount))
  {
    AmountCharacters(s);
  }

  /** Reading on can only make a numeral larger. */
  lemma {:induction false} NumeralGrows(s: string, k: nat)
    requires k <= |s| && AllDigits(s)
    ensures Numeral(s[..k]) <= Numeral(s)
    decreases |s|
  {
    if k < |s| {
      var front := s[..|s| - 1];
      assert front[..k] == s[..k];
      NumeralGrows(front, k);
    } else {
      assert s[..k] == s;
    }
  }

  /** Accumulates digits with checked steps; fails exactly when the whole numeral exceeds int64. */
  method ParseUintStrict(s: string) returns (r: Result<int64, Error>)
    requires AllDigits(s)
    ensures r == if Numeral(s) <= MAX_INT64 then Success(Numeral(s)) else Failure(Domain(InvalidAmount))
  {
    var n: int64 := 0;
    for i := 0 to |s|
      invariant n == Numeral(s[..i])
      invariant n >= 0
    {
      NumeralGrows(s, i + 1);
      assert s[..i + 1][..i] == s[..i];
      var digit := s[i] as int - '0' as int;
      var n2 := MulChecked(n, 10);
      if n2.Failure? {
        return Failure(Domain(InvalidAmount));
      }
      var n3 := AddChecked(n2.value, digit);
      if n3.Failure? {
        return Failure(Domain(InvalidAmount));
      }
      n := n3.value;
    }
    assert s[..|s|] == s;
    return Success(n);
  }

  predicate IsSpace(c: char) {
    c in {'\t', '\n', '\U{B}', '\U{C}', '\r', ' ', '\U{85}', '\U{A0}'}
  }

  function ToLower(s: string): string {
    seq(|s|, i requires 0 <= i < |s| => if 'A' <= s[i] <= 'Z' then (s[i] as int + 32) as char else s[i])
  }

  const NOT_FINITE: set<string> :=
    {"nan", "inf", "+inf", "-inf", "infinity", "+infinity", "-infinity"}

  /** The source's parser, test by test. */
  method ParseDecimalToMinor(amount: string) returns (r: Result<int64, Error>)
    ensures r == ParsedMinor(amount)
  {
    AmountFromParts(amount);
    if amount == "" {
      return Failure(Domain(InvalidAmount));
    }
    for i := 0 to |amount| {
      if IsSpace(amount[i]) {
        BadCharacter(amount, i);
        return Failure(Domain(InvalidAmount));
      }
    }
    if ToLower(amount) in NOT_FINITE {
      LowerKeepsDigits(amount);
      return Failure(Domain(InvalidAmount));
    }
    if 'e' in amount || 'E' in amount {
      ghost var i :| 0 <= i < |amount| && (amount[i] == 'e' || amount[i] == 'E');
      BadCharacter(amount, i);
      return Failure(Domain(InvalidAmount));
    }
    if amount[0] == '+' || amount[0] == '-' {
      BadCharacter(amount, 0);
      return Failure(Domain(InvalidAmount));
    }
    r := ParseParts(SplitDot(amount));
  }

  /** The second half of the parser: from the parts around the dot to minor units. */
  method ParseParts(parts: seq<string>) returns (r: Result<int64, Error>)
    requires |parts| > 0
    ensures GoodParts(parts) && Numeral(parts[0]) * 100 + Padded(Fraction(parts), 2) <= MAX_INT64 ==>
      r == Success(Numeral(parts[0]) * 100 + Padded(Fraction(parts), 2))
    ensures !(GoodParts(parts) && Numeral(parts[0]) * 100 + Padded(Fraction(parts), 2) <= MAX_INT64) ==>
      r == Failure(Domain(InvalidAmount))
  {
    if |parts| > 2 {
      return Failure(Domain(InvalidAmount));
    }
    var majorPart := parts[0];
    var fracPart := "";
    if |parts| == 2 {
      fracPart := parts[1];
    }
    ghost var given := fracPart;
    if majorPart == "" {
      return Failure(Domain(InvalidAmount));
    }
    if |fracPart| > 2 {
      return Failure(Domain(InvalidAmount));
    }
    DigitsOfBoth(majorPart, fracPart);
    var both := majorPart + fracPart;
    for i := 0 to |both|
      invariant AllDigits(both[..i])
    {
      if !IsDigit(both[i]) {
        return Failure(Domain(InvalidAmount));
      }
    }
    assert both[..|both|] == both;
    while |fracPart| < 2
      invariant |given| <= |fracPart| <= 2
      invariant AllDigits(fracPart)
      invariant Numeral(fracPart) == Padded(given, |fracPart|)
    {
      assert (fracPart + "0")[..|fracPart|] == fracPart;
      fracPart := fracPart + "0";
    }
    TwoDigits(fracPart);

    var major := ParseUintStrict(majorPart);
    if major.Failure? {
      return major;
    }
    var frac := ParseUintStrict(fracPart);
    if frac.Failure? {
      return frac;
    }
    // major * 100 + frac with overflow check
    var scaled := MulChecked(major.value, SCALE);
    if scaled.Failure? {
      return scaled;
    }
    r := AddChecked(scaled.value, frac.value);
  }

  /** Every spelling of a non-finite number holds a letter. */
  lemma LowerKeepsDigits(s: string)
    requires ToLower(s) in NOT_FINITE
    ensures !IsAmount(s)
  {
    AmountCharacters(s);
    var low := ToLower(s);
    assert |low| >= 3;
    var i := if low[0] == '+' || low[0] == '-' then 1 else 0;
    assert low[i] == 'n' || low[i] == 'i';
    assert !IsDigit(s[i]) && s[i] != '.';
  }

  lemma DigitsOfBoth(s: string, t: string)
    ensures AllDigits(s + t) <==> AllDigits(s) && AllDigits(t)
  {
    forall i | 0 <= i < |s|
      ensures (s + t)[i] == s[i]
    {
    }
    forall i | 0 <= i < |t|
      ensures (s + t)[|s| + i] == t[i]
    {
    }
    if AllDigits(s + t) {
      forall i | 0 <= i < |t|
        ensures IsDigit(t[i])
      {
        assert IsDigit((s + t)[|s| + i]);
      }
    }
  }

  lemma TwoDigits(s: string)
    requires |s| == 2 && AllDigits(s)
    ensures 0 <= Numeral(s) <= 99
  {
    assert Numeral(s[..1]) == Numeral(s[..0]) * 10 + (s[0] as int - '0' as int) by {
      assert s[..1][..0] == s[..0];
    }
    assert IsDigit(s[0]) && IsDigit(s[1]);
  }

  /** strings.TrimSpace and strings.ToUpper on ASCII text, then three letters. */
  function NormalizeCurrency(currency: string): (r: Result<Currency, Error>)
    ensures IsCurrency(currency) ==> r == Success(currency)
    ensures r.Success? ==> ToUpper(TrimSpace(currency)) == r.value
  {
    assert |currency| == 3 && !IsSpace(currency[0]) && !IsSpace(currency[2]) ==> TrimSpace(currency) == currency;
    var cur := ToUpper(TrimSpace(currency));
    assert IsCurrency(currency) ==> cur == currency;
    if IsCurrency(cur) then Success(cur) else Failure(Domain(InvalidInput))
  }

  function TrimSpace(s: string): (t: string)
    ensures |t| <= |s|
    ensures s != "" && !IsSpace(s[0]) && !IsSpace(s[|s| - 1]) ==> t == s
  {
    if s == "" then s
    else if IsSpace(s[0]) then TrimSpace(s[1..])
    else if IsSpace(s[|s| - 1]) then TrimSpace(s[..|s| - 1])
    else s
  }

  function ToUpper(s: string): string {
    seq(|s|, i requires 0 <= i < |s| => if 'a' <= s[i] <= 'z' then (s[i] as int - 32) as char else s[i])
  }

  // ----- which texts are accepted -----

  predicate AllSpaces(s: string) {
    forall i | 0 <= i < |s| :: IsSpace(s[i])
  }

  predicate IsLetter(c: char) {
    'a' <= c <= 'z' || 'A' <= c <= 'Z'
  }

  function Upper(c: char): char {
    if 'a' <= c <= 'z' then (c as int - 32) as char else c
  }

  lemma {:induction false} TrimPadded(pre: string, cur: string, post: string)
    requires AllSpaces(pre) && AllSpaces(post) && cur != "" && !IsSpace(cur[0]) && !IsSpace(cur[|cur| - 1])
    ensures TrimSpace(pre + cur + post) == cur
    decreases |pre| + |post|
  {
    var s := pre + cur + post;
    if pre != "" {
      assert s[0] == pre[0] && s[1..] == pre[1..] + cur + post;
      TrimPadded(pre[1..], cur, post);
    } else if post != "" {
      assert s[0] == cur[0] && s[|s| - 1] == post[|post| - 1];
      assert s[..|s| - 1] == pre + cur + post[..|post| - 1];
      TrimPadded(pre, cur, post[..|post| - 1]);
    } else {
      assert s == cur;
    }
  }

  lemma {:induction false} TrimDecomposes(s: string) returns (pre: string, post: string)
    ensures AllSpaces(pre) && AllSpaces(post) && s == pre + TrimSpace(s) + post
    decreases |s|
  {
    pre, post := "", "";
    if s != "" {
      hide IsSpace;
      if IsSpace(s[0]) {
        pre, post := TrimDecomposes(s[1..]);
        SpaceAround(pre, post, s[0]);
        pre := [s[0]] + pre;
      } else if IsSpace(s[|s| - 1]) {
        pre, post := TrimDecomposes(s[..|s| - 1]);
        SpaceAround(pre, post, s[|s| - 1]);
        assert s == s[..|s| - 1] + [s[|s| - 1]];
        post := post + [s[|s| - 1]];
      }
    }
  }

  lemma SpaceAround(pre: string, post: string, c: char)
    requires AllSpaces(pre) && AllSpaces(post) && IsSpace(c)
    ensures AllSpaces([c] + pre) && AllSpaces(post + [c])
  {
    hide IsSpace;
  }

  /** Three letters in any case, with any white space around. */
  ghost predicate SpellsCurrency(s: string, pre: string, cur: string, post: string) {
    && s == pre + cur + post && AllSpaces(pre) && AllSpaces(post)
    && |cur| == 3 && IsLetter(cur[0]) && IsLetter(cur[1]) && IsLetter(cur[2])
  }

  /** The currency is those letters in upper case; every other text is refused. */
  lemma CurrencyExactly(s: string)
    ensures NormalizeCurrency(s).Success? <==> exists pre, cur, post :: SpellsCurrency(s, pre, cur, post)
    ensures forall pre, cur, post | SpellsCurrency(s, pre, cur, post) ::
      NormalizeCurrency(s).Success? && NormalizeCurrency(s).value == [Upper(cur[0]), Upper(cur[1]), Upper(cur[2])]
    ensures NormalizeCurrency(s).Failure? ==> NormalizeCurrency(s).error == Domain(InvalidInput)
  {
    forall pre, cur, post | SpellsCurrency(s, pre, cur, post)
      ensures NormalizeCurrency(s).Success? && NormalizeCurrency(s).value == [Upper(cur[0]), Upper(cur[1]), Upper(cur[2])]
    {
      TrimPadded(pre, cur, post);
      assert ToUpper(cur) == [Upper(cur[0]), Upper(cur[1]), Upper(cur[2])];
    }
    if NormalizeCurrency(s).Success? {
      var pre, post := TrimDecomposes(s);
      var cur := TrimSpace(s);
      assert forall i | 0 <= i < |cur| :: ToUpper(cur)[i] == Upper(cur[i]);
      assert SpellsCurrency(s, pre, cur, post);
    }
  }

  /** The hundredths a fraction of at most two digits denotes. */
  function Hundredths(frac: string): int
    requires |frac| <= 2
  {
    if |frac| == 0 then 0
    else if |frac| == 1 then (frac[0] as int - '0' as int) * 10
    else (frac[0] as int - '0' as int) * 10 + (frac[1] as int - '0' as int)
  }

  /** Whole digits, alone or with a dot and at most two digits after it. */
  ghost predicate SpellsAmount(s: string, major: string, frac: string) {
    && major != "" && AllDigits(major) && AllDigits(frac) && |frac| <= 2
    && (s == major + "." + frac || (s == major && frac == ""))
  }

  /** The amount is the digits in hundredths; every other text, and every amount above int64, is refused. */
  lemma AmountExactly(s: string)
    ensures forall major, frac | SpellsAmount(s, major, frac) ::
      var worth := Numeral(major) * 100 + Hundredths(frac);
      if worth > MAX_INT64 then ParsedMinor(s) == Failure(Domain(InvalidAmount)) else ParsedMinor(s) == Success(worth)
    ensures (forall major, frac :: !SpellsAmount(s, major, frac)) ==> ParsedMinor(s) == Failure(Domain(InvalidAmount))
  {
    forall major, frac | SpellsAmount(s, major, frac)
      ensures IsAmount(s) && MinorValue(s) == Numeral(major) * 100 + Hundredths(frac)
    {
      SpelledAmount(s, major, frac);
    }
    if IsAmount(s) {
      AmountIsSpelled(s);
    }
    hide IsAmount, MinorValue, SpellsAmount, Hundredths, Numeral;
  }

  lemma AmountIsSpelled(s: string)
    requires IsAmount(s)
    ensures exists major, frac :: SpellsAmount(s, major, frac)
  {
    var k := Lead(s);
    assert SpellsAmount(s, s[..k], if k == |s| then "" else s[k + 1..]) by {
      assert k == |s| ==> s[..k] == s;
      assert k < |s| ==> s == s[..k] + "." + s[k + 1..];
    }
  }

  lemma SpelledAmount(s: string, major: string, frac: string)
    requires SpellsAmount(s, major, frac)
    ensures IsAmount(s) && MinorValue(s) == Numeral(major) * 100 + Hundredths(frac)
  {
    var k := |major|;
    assert s[..k] == major;
    LeadIs(s, k);
    PaddedIs(frac);
    if k < |s| {
      assert s[k + 1..] == frac;
    }
  }

  lemma PaddedIs(frac: string)
    requires |frac| <= 2
    ensures Padded(frac, 2) == Hundredths(frac)
  {
    if |frac| == 0 {
      assert Padded(frac, 1) == Padded(frac, 0) * 10;
    } else {
      OneDigit(frac[0]);
      if |frac| == 1 {
        assert frac == [frac[0]] && Padded(frac, 2) == Padded(frac, 1) * 10;
      } else {
        assert frac[..1] == [frac[0]];
      }
    }
  }

  lemma OneDigit(c: char)
    ensures Numeral([c]) == c as int - '0' as int
  {
    assert [c][..0] == "";
  }

  lemma TwoDigitNumeral(c: char, d: char)
    ensures Numeral([c, d]) == (c as int - '0' as int) * 10 + (d as int - '0' as int)
  {
    OneDigit(c);
    assert [c, d][..1] == [c];
  }

  /** Read digit by digit in base ten. */
  lemma ParsedTexts()
    ensures ParsedMinor("12.34") == Success(1234) && ParsedMinor("5") == Success(500) && ParsedMinor("0.5") == Success(50)
  {
    hide ParsedMinor, Numeral;
    TwoDigitNumeral('1', '2');
    OneDigit('5');
    OneDigit('0');
    AmountExactly("12.34");
    AmountExactly("5");
    AmountExactly("0.5");
    assert SpellsAmount("12.34", "12", "34");
    assert SpellsAmount("5", "5", "");
    assert SpellsAmount("0.5", "0", "5");
  }

  /** Parse: the currency is checked before the amount. */
  method Parse(amount: string, currency: string) returns (r: Result<Money, Error>)
    ensures r.Success? <==> NormalizeCurrency(currency).Success? && ParsedMinor(amount).Success?
    ensures r.Success? ==> r.value == Money(ParsedMinor(amount).value, NormalizeCurrency(currency).value)
    ensures r.Failure? ==>
      r.error == Domain(if NormalizeCurrency(currency).Failure? then InvalidInput else InvalidAmount)
  {
    var cur := NormalizeCurrency(currency);
    if cur.Failure? {
      return Failure(cur.error);
    }
    var minor := ParseDecimalToMinor(amount);
    if minor.Failure? {
      return Failure(minor.error);
    }
    return Success(Money(minor.value, cur.value));
  }

  // ----- round trip -----

  /** What the printer writes for an amount that is not negative. */
  lemma FormatParts(minor: int64)
    requires minor >= 0
    ensures Format(minor) == Decimal(minor / 100) + "." + PrintTwo(minor % 100)
    ensures |PrintTwo(minor % 100)| == 2 && AllDigits(PrintTwo(minor % 100))
    ensures Numeral(PrintTwo(minor % 100)) == minor % 100
  {
    TwoDigitPrint(minor % 100);
  }

  lemma TwoDigitPrint(f: nat)
    requires f < 100
    ensures |PrintTwo(f)| == 2 && AllDigits(PrintTwo(f)) && Numeral(PrintTwo(f)) == f
  {
    var s := PrintTwo(f);
    if f >= 10 {
      assert |Decimal(f / 10)| == 1;
      assert s == Decimal(f / 10) + [DIGITS[f % 10]];
    } else {
      assert s == ['0', DIGITS[f]];
      assert s[..1] == "0";
      assert s[..1][..0] == "";
    }
  }

  /** Printing then parsing gives the amount back exactly when the amount is not negative. */
  lemma PrintThenParse(minor: int64)
    ensures ParsedMinor(Format(minor)) == Success(minor) <==> minor >= 0
    ensures minor < 0 ==> ParsedMinor(Format(minor)) == Failure(Domain(InvalidAmount))
  {
    var s := Format(minor);
    if minor >= 0 {
      FormatParts(minor);
      var k := |Decimal(minor / 100)|;
      assert s[..k] == Decimal(minor / 100);
      assert s[k] == '.';
      LeadIs(s, k);
      assert s[k + 1..] == PrintTwo(minor % 100);
    } else {
      assert s[0] == '-';
      AmountCharacters(s);
    }
  }

  /** Two accepted texts denote the same amount exactly when that amount prints the same. */
  lemma SameAmountSamePrint(s: string, t: string)
    requires ParsedMinor(s).Success? && ParsedMinor(t).Success?
    ensures ParsedMinor(s) == ParsedMinor(t) <==> Format(ParsedMinor(s).value) == Format(ParsedMinor(t).value)
    ensures ParsedMinor(Format(ParsedMinor(s).value)) == ParsedMinor(s)
  {
    PrintThenParse(ParsedMinor(s).value);
    PrintThenParse(ParsedMinor(t).value);
  }

  /** The printer is not two's-complement safe: the minimum prints two signs. */
  lemma PrintOfMinimum()
    ensures Format(MIN_INT64)[..2] == "--"
  {
    assert GoDiv(MIN_INT64, SCALE) < 0;
  }

  /** Any other negative amount prints as its magnitude behind one minus sign, above -1.00 too. */
  lemma PrintOfNegative(minor: int64)
    requires MIN_INT64 < minor < 0
    ensures Format(minor) == "-" + Format(-minor)
  {
  }
}
