/** Parsing of merchant input and printing of money (app/fsm/fsm_utils.py, app/ai/formatter.py).
    Money is held in cents. */
module Inputs {
  import opened Text

  /** The message keys that the conversation model can answer with. */
  datatype MessageKey =
    | FlowCancelled | TooManyInvalid | UnknownIntent | UnknownError | SessionContextLost
    | StartSale | StartStockCheck | StartAddProduct | ReportGenerating
    | AskPrice | AskStockQuantity | ConfirmProduct | ProductCancelled | ProductAdded
    | AskSaleQuantity | AskQuantity | ProductNotFound | ProductChoices
    | ConfirmSale | SaleCancelled | SaleRecorded | StockNotFound
    | StockRemaining(name: string, quantity: int)
    | ProductNameInvalid | PriceInvalid | PriceNonPositive | QuantityInvalid | QuantityNegative
    | QuantityTooLow | ConfirmationInvalid | InvalidChoice
    | InsufficientStock(available: int)
    | AnalyticsAnswer | AnalyticsEmpty | AnalyticsInvalidProposal | AnalyticsDomainError
    | AnalyticsProviderUnavailable | AnalyticsInfrastructureError

  /** `Bad` is InvalidInputError with its message key; `Raises` is any other exception. */
  datatype Parsed<+T> = Good(value: T) | Bad(key: MessageKey) | Raises

  /** Parsing never complains about a lost session. */
  predicate Sane<T>(parsed: Parsed<T>) {
    parsed.Bad? ==> parsed.key != SessionContextLost
  }

  function ParseProductName(raw: string): (r: Parsed<string>)
    ensures Sane(r)
  {
    var cleaned := Strip(raw);
    if |cleaned| < 2 || |cleaned| > 100 then Bad(ProductNameInvalid) else Good(cleaned)
  }

  function ParseQuantity(raw: string): (r: Parsed<int>)
    ensures Sane(r) && (r.Good? ==> r.value >= 0)
  {
    match ParseInt(raw)
    case None => Bad(QuantityInvalid)
    case Some(quantity) => if quantity < 0 then Bad(QuantityNegative) else Good(quantity)
  }

  function ParseConfirmation(raw: string): (r: Parsed<bool>)
    ensures Sane(r)
  {
    var cleaned := ToLower(Strip(raw));
    if cleaned in {"yes", "y", "ndio", "1"} then Good(true)
    else if cleaned in {"no", "n", "zii", "2"} then Good(false)
    else Bad(ConfirmationInvalid)
  }

  // ---------------------------------------------------------------- decimals

  /** A decimal.Decimal: the finite value is (-1)^negative * coef * 10^exp. */
  datatype Decimal = Finite(negative: bool, coef: nat, exp: int) | Infinity | QuietNaN | SignalingNaN

  /** `Decimal(text)` on upper-case text; `None` where it raises InvalidOperation. */
  function ParseDecimal(text: string): Option<Decimal> {
    var t := Without(Strip(text), '_');
    if t != "" && (t[0] == '+' || t[0] == '-') then ParseUnsigned(t[1..], t[0] == '-')
    else ParseUnsigned(t, false)
  }

  function ParseUnsigned(body: string, negative: bool): Option<Decimal> {
    if body == "INF" || body == "INFINITY" then Some(Infinity)
    else if StartsWith(body, "NAN") && AllDigits(body[3..]) then Some(QuietNaN)
    else if StartsWith(body, "SNAN") && AllDigits(body[4..]) then Some(SignalingNaN)
    else
      var e := IndexOf(body, 'E');
      match (ParseMantissa(body[..e]), ParseExponent(body[e..]))
      case (Some((coef, scale)), Some(exponent)) => Some(Finite(negative, coef, exponent - scale))
      case _ => None
  }

  /** Digits with at most one point: the coefficient and the number of digits after the point. */
  function ParseMantissa(text: string): Option<(nat, nat)> {
    var point := IndexOf(text, '.');
    var whole, fraction := text[..point], if point < |text| then text[point + 1..] else "";
    if AllDigits(whole + fraction) && whole + fraction != ""
    then Some((DigitsValue(whole + fraction), |fraction|))
    else None
  }

  /** "" or `E` followed by an optionally signed run of digits. */
  function ParseExponent(text: string): Option<int> {
    if text == "" then Some(0)
    else
      var signed := |text| > 1 && (text[1] == '+' || text[1] == '-');
      var digits := if signed then text[2..] else text[1..];
      if !AllDigits(digits) || digits == "" then None
      else
        var magnitude: int := DigitsValue(digits);
        Some(if signed && text[1] == '-' then -magnitude else magnitude)
  }

  const PRECISION := 28 // digits of the default decimal context

  function Quotient(n: nat, d: nat): nat
    requires d > 0
  {
    n / d
  }

  /** The magnitude of `quantize(Decimal("0.01"), ROUND_HALF_UP)`, in cents. */
  function HalfUpCents(coef: nat, exp: int): nat {
    if exp >= -2 then coef * Pow10(exp + 2)
    else Quotient(2 * coef + Pow10(-exp - 2), 2 * Pow10(-exp - 2))
  }

  /** `re.sub(r"^(KES|KSH)\.?\s*", "", text)` */
  function StripCurrency(text: string): string {
    if StartsWith(text, "KES") || StartsWith(text, "KSH") then
      var rest := text[3..];
      StripLeft(if rest != "" && rest[0] == '.' then rest[1..] else rest)
    else text
  }

  /** `re.sub(r"/=$", "", text)` */
  function StripSlashEquals(text: string): string {
    if |text| >= 2 && text[|text| - 2..] == "/=" then text[..|text| - 2] else text
  }

  function CleanPrice(raw: string): string {
    Strip(Without(StripSlashEquals(StripCurrency(ToUpper(Strip(raw)))), ','))
  }

  /** The price in cents. A quiet NaN passes `quantize` and makes the comparison with 0 raise. */
  function PriceInCents(d: Decimal): (r: Parsed<int>)
    ensures Sane(r) && (r.Good? ==> 0 < r.value < Pow10(PRECISION))
  {
    match d
    case Infinity => Bad(PriceInvalid)
    case SignalingNaN => Bad(PriceInvalid)
    case QuietNaN => Raises
    case Finite(negative, coef, exp) =>
      var cents := HalfUpCents(coef, exp);
      if cents >= Pow10(PRECISION) then Bad(PriceInvalid)
      else if negative || cents == 0 then Bad(PriceNonPositive)
      else Good(cents)
  }

  function ParsePrice(raw: string): (r: Parsed<int>)
    ensures Sane(r) && (r.Good? ==> 0 < r.value < Pow10(PRECISION))
  {
    match ParseDecimal(CleanPrice(raw))
    case None => Bad(PriceInvalid)
    case Some(d) => PriceInCents(d)
  }

  // ------------------------------------------------- rounding, on real numbers

  ghost function Magnitude(coef: nat, exp: int): real {
    if exp >= 0 then (coef * Pow10(exp)) as real else coef as real / Pow10(-exp) as real
  }

  ghost function RealValue(d: Decimal): real
    requires d.Finite?
  {
    if d.negative then -Magnitude(d.coef, d.exp) else Magnitude(d.coef, d.exp)
  }

  lemma ProductPositive(b: real, c: real)
    requires b > 0.0 && c > 0.0
    ensures b * c > 0.0
  {
  }

  lemma RoundedIsNear(b: real, q: real, a: real, p: real, x: real)
    requires b > 0.0 && b * x == a && b * q == p
    requires p <= a + b / 2.0 < p + b
    ensures 0.0 <= x + 0.5 - q < 1.0
  {
    var y := x + 0.5 - q;
    assert b * y == a + b / 2.0 - p by {
      assert b * y == b * x + b * 0.5 - b * q;
    }
    if y < 0.0 {
      ProductPositive(b, -y);
    } else if y > 1.0 {
      ProductPositive(b, y - 1.0);
    }
  }

  lemma RoundedBounds(n: nat, d: nat)
    requires d > 0
    ensures d * Quotient(n, d) <= n < d * Quotient(n, d) + d
  {
  }

  lemma ProductCast(b: nat, q: nat)
    ensures b as real * q as real == (b * q) as real
  {
  }

  lemma RoundedTwice(a: nat, b: nat)
    requires b > 0
    ensures var p := b * Quotient(2 * a + b, 2 * b);
            2 * p <= 2 * a + b < 2 * p + 2 * b
  {
    RoundedBounds(2 * a + b, 2 * b);
  }

  lemma HalvesAsReals(a: nat, b: nat, p: nat)
    requires 2 * p <= 2 * a + b < 2 * p + 2 * b
    ensures p as real <= a as real + b as real / 2.0 < p as real + b as real
  {
  }

  lemma FloorOfQuotient(a: nat, b: nat, x: real)
    requires b > 0 && b as real * x == a as real
    ensures (x + 0.5).Floor == Quotient(2 * a + b, 2 * b)
  {
    var q := Quotient(2 * a + b, 2 * b);
    var p := b * q;
    RoundedTwice(a, b);
    HalvesAsReals(a, b, p);
    ProductCast(b, q);
    RoundedIsNear(b as real, q as real, a as real, p as real, x);
  }

  lemma HalfUpIsFloor(coef: nat, exp: int)
    ensures (100.0 * Magnitude(coef, exp) + 0.5).Floor == HalfUpCents(coef, exp)
  {
    if exp >= 0 {
      assert Pow10(exp + 2) == 100 * Pow10(exp);
    } else if exp == -1 {
      assert Pow10(1) == 10;
      assert 100.0 * Magnitude(coef, exp) == (10 * coef) as real;
    } else if exp == -2 {
      assert Pow10(2) == 100 && Pow10(0) == 1;
      assert 100.0 * Magnitude(coef, exp) == coef as real;
    } else {
      var unit := Pow10(-exp - 2);
      assert Pow10(-exp) == 100 * unit;
      var x := coef as real / (100 * unit) as real;
      assert unit as real * (100.0 * x) == x * (100 * unit) as real;
      FloorOfQuotient(coef, unit, 100.0 * x);
    }
  }

  /** On any finite decimal x the price is floor(100x + 1/2) cents, and it is accepted exactly
      when that is positive and within the decimal precision; beyond the precision it is invalid,
      and otherwise not positive. */
  lemma PriceIsHalfUpRounding(d: Decimal)
    requires d.Finite?
    ensures var cents := (100.0 * RealValue(d) + 0.5).Floor;
            && (PriceInCents(d).Good? <==> 0 < cents < Pow10(PRECISION))
            && (PriceInCents(d).Good? ==> PriceInCents(d).value == cents)
            && (PriceInCents(d) == Bad(PriceInvalid)
                <==> (100.0 * Magnitude(d.coef, d.exp) + 0.5).Floor >= Pow10(PRECISION))
  {
    HalfUpIsFloor(d.coef, d.exp);
    assert Magnitude(d.coef, d.exp) >= 0.0;
  }

  // ------------------------------------------------- printing, and reading back

  function Pad3(k: nat): string
    requires k < 1000
  {
    [DigitChar(k / 100), DigitChar(k / 10 % 10), DigitChar(k % 10)]
  }

  /** An integer with thousands separators. */
  function PrintGrouped(n: nat): string {
    if n < 1000 then PrintNat(n) else PrintGrouped(n / 1000) + "," + Pad3(n % 1000)
  }

  /** `f"{x:,.2f}"` for a non-negative amount. */
  function PrintMoney(cents: nat): string {
    PrintGrouped(cents / 100) + "." + [DigitChar(cents / 10 % 10), DigitChar(cents % 10)]
  }

  lemma Pad3Reads(k: nat)
    requires k < 1000
    ensures AllDigits(Pad3(k)) && DigitsValue(Pad3(k)) == k
  {
    var p := Pad3(k);
    var p2, p1 := p[..2], p[..1];
    assert p2 == [p[0], p[1]] && p2[..1] == p1 && p1 == [p[0]] && p1[..0] == "";
    assert DigitsValue(p1) == k / 100;
    assert DigitsValue(p2) == k / 10;
  }

  lemma {:induction false} GroupedReads(n: nat)
    ensures var s := PrintGrouped(n);
            && s != "" && IsDigit(s[0]) && (forall i :: 0 <= i < |s| ==> IsDigit(s[i]) || s[i] == ',')
            && var w := Without(s, ',');
               w != "" && AllDigits(w) && DigitsValue(w) == n
  {
    if n < 1000 {
      PrintedNatReads(n);
      WithoutAbsent(PrintNat(n), ',');
    } else {
      hide PrintNat;
      var high, low := PrintGrouped(n / 1000), Pad3(n % 1000);
      GroupedReads(n / 1000);
      Pad3Reads(n % 1000);
      ThreeDigitsMore(high, low, n / 1000, n % 1000);
    }
  }

  /** One more group of digits. */
  lemma ThreeDigitsMore(high: string, low: string, head: nat, last: nat)
    requires var w := Without(high, ','); w != "" && AllDigits(w) && DigitsValue(w) == head
    requires |low| == 3 && AllDigits(low) && DigitsValue(low) == last
    ensures var w := Without(high + "," + low, ','); w != "" && AllDigits(w) && DigitsValue(w) == head * 1000 + last
  {
    hide DigitsValue;
    WithoutConcat3(high, ",", low, ',');
    WithoutAbsent(low, ',');
    assert Without(",", ',') == "";
    DigitsValueConcat(Without(high, ','), low);
    assert Without(high, ',') + "" == Without(high, ',');
    assert Pow10(3) == 1000;
  }

  lemma WithoutConcat3(s: string, m: string, t: string, c: char)
    ensures Without(s + m + t, c) == Without(s, c) + Without(m, c) + Without(t, c)
  {
    WithoutConcat(s + m, t, c);
    WithoutConcat(s, m, c);
  }

  lemma PointSplits(text: string, whole: string, fraction: string)
    requires AllDigits(whole) && AllDigits(fraction) && text == whole + "." + fraction
    ensures IndexOf(text, '.') == |whole|
    ensures text[..|whole|] == whole && text[|whole| + 1..] == fraction
  {
    assert text[|whole|] == '.';
    assert forall i :: 0 <= i < |whole| ==> text[i] == whole[i];
  }

  lemma TwoDigitsRead(d1: nat, d0: nat)
    requires d1 < 10 && d0 < 10
    ensures var low := [DigitChar(d1), DigitChar(d0)];
            AllDigits(low) && DigitsValue(low) == 10 * d1 + d0
  {
    var low := [DigitChar(d1), DigitChar(d0)];
    assert low[..1] == [low[0]] && low[..1][..0] == "";
    assert DigitsValue(low[..1]) == d1;
  }

  lemma FixedPointReads(text: string, whole: string, d1: nat, d0: nat)
    requires whole != "" && AllDigits(whole) && d1 < 10 && d0 < 10
    requires text == whole + "." + [DigitChar(d1), DigitChar(d0)]
    ensures ParseMantissa(text) == Some((DigitsValue(whole) * 100 + 10 * d1 + d0, 2))
  {
    var low := [DigitChar(d1), DigitChar(d0)];
    TwoDigitsRead(d1, d0);
    PointSplits(text, whole, low);
    DigitsValueConcat(whole, low);
    assert Pow10(2) == 100;
  }

  lemma PlainUnsignedReads(plain: string, coef: nat, scale: nat)
    requires plain != "" && forall i :: 0 <= i < |plain| ==> IsDigit(plain[i]) || plain[i] == '.'
    requires ParseMantissa(plain) == Some((coef, scale))
    ensures ParseUnsigned(plain, false) == Some(Finite(false, coef, 0 - scale))
  {
    hide ParseMantissa;
    assert IndexOf(plain, 'E') == |plain|;
    assert plain[..|plain|] == plain && plain[|plain|..] == "";
    assert plain[0] != 'N' && plain[0] != 'S' && plain[0] != 'I';
  }

  lemma PlainDecimalReads(plain: string, coef: nat, scale: nat)
    requires plain != "" && IsDigit(plain[0]) && IsDigit(plain[|plain| - 1])
    requires forall i :: 0 <= i < |plain| ==> IsDigit(plain[i]) || plain[i] == '.'
    requires ParseMantissa(plain) == Some((coef, scale))
    ensures ParseDecimal(Strip(plain)) == Some(Finite(false, coef, 0 - scale))
  {
    hide ParseMantissa, ParseUnsigned;
    StripTight(plain);
    WithoutAbsent(plain, '_');
    PlainUnsignedReads(plain, coef, scale);
  }

  predicate MoneyText(s: string) {
    && s != "" && IsDigit(s[0]) && IsDigit(s[|s| - 1])
    && forall i :: 0 <= i < |s| ==> IsDigit(s[i]) || s[i] == ',' || s[i] == '.'
  }

  lemma PrintedMoneyIsMoneyText(cents: nat)
    ensures MoneyText(PrintMoney(cents))
  {
    GroupedReads(cents / 100);
  }

  /** What is left of a printed amount after the separators go: digits, a point, two digits. */
  lemma PlainMoney(cents: nat)
    ensures var low := [DigitChar(cents / 10 % 10), DigitChar(cents % 10)];
            Without(PrintMoney(cents), ',') == Without(PrintGrouped(cents / 100), ',') + "." + low
  {
    var low := [DigitChar(cents / 10 % 10), DigitChar(cents % 10)];
    WithoutConcat3(PrintGrouped(cents / 100), ".", low, ',');
    WithoutAbsent(low, ',');
    WithoutAbsent(".", ',');
  }

  lemma PlainMoneyReads(cents: nat)
    ensures ParseDecimal(Strip(Without(PrintMoney(cents), ','))) == Some(Finite(false, cents, -2))
  {
    hide ParseDecimal, ParseMantissa, PrintGrouped, Strip, Without;
    var whole, d1, d0 := Without(PrintGrouped(cents / 100), ','), cents / 10 % 10, cents % 10;
    var plain := whole + "." + [DigitChar(d1), DigitChar(d0)];
    GroupedReads(cents / 100);
    PlainMoney(cents);
    FixedPointReads(plain, whole, d1, d0);
    PlainDecimalReads(plain, cents, 2);
  }

  lemma SlashStrips(money: string, slash: bool)
    requires money != "" && IsDigit(money[|money| - 1])
    ensures StripSlashEquals(money + (if slash then "/=" else "")) == money
  {
    var raw := money + (if slash then "/=" else "");
    if slash {
      assert raw[|raw| - 2..] == "/=" && raw[..|raw| - 2] == money;
    } else {
      assert raw == money;
      if |raw| >= 2 {
        assert raw[|raw| - 2..][1] == money[|money| - 1];
      }
    }
  }

  lemma UpperNeutral(s: string)
    requires forall i :: 0 <= i < |s| ==> !('a' <= s[i] <= 'z')
    ensures ToUpper(s) == s
  {
  }
}
