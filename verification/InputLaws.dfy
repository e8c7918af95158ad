/** What the merchant may type, and what it is read as: padding, signs, spellings of prices, and the forms of a
    decimal number (app/fsm/fsm_utils.py); and how printed amounts are grouped (app/ai/formatter.py). */
module InputLaws {
  import opened Text
  import opened Inputs

  predicate AllSpace(s: string) {
    forall i :: 0 <= i < |s| ==> IsSpace(s[i])
  }

  predicate Tight(s: string) {
    s != "" && !IsSpace(s[0]) && !IsSpace(s[|s| - 1])
  }

  lemma {:induction false} StripsLeft(pad: string, rest: string)
    requires AllSpace(pad) && rest != "" && !IsSpace(rest[0])
    ensures StripLeft(pad + rest) == rest
  {
    if pad == "" {
      assert pad + rest == rest;
    } else {
      StripsLeft(pad[1..], rest);
      assert (pad + rest)[1..] == pad[1..] + rest;
    }
  }

  lemma {:induction false} StripsRight(word: string, pad: string)
    requires AllSpace(pad) && word != "" && !IsSpace(word[|word| - 1])
    ensures StripRight(word + pad) == word
  {
    if pad == "" {
      assert word + pad == word;
    } else {
      StripsRight(word, pad[..|pad| - 1]);
      assert (word + pad)[..|word + pad| - 1] == word + pad[..|pad| - 1];
    }
  }

  lemma StripPadded(before: string, word: string, after: string)
    requires AllSpace(before) && AllSpace(after) && Tight(word)
    ensures Strip(before + word + after) == word
  {
    assert before + word + after == before + (word + after);
    StripsLeft(before, word + after);
    StripsRight(word, after);
  }

  // ------------------------------------------------------------ whole numbers

  function Signed(sign: string, n: int): int {
    if sign == "-" then -n else n
  }

  lemma SignedTextReads(raw: string, sign: string, digits: string)
    requires sign in {"", "+", "-"} && digits != "" && AllDigits(digits) && |digits| <= MAX_INT_DIGITS
    requires Strip(raw) == sign + digits
    ensures ParseInt(raw) == Some(Signed(sign, DigitsValue(digits)))
  {
    hide DigitsValue, Strip, Without;
    var t := Strip(raw);
    WithoutAbsent(digits, '_');
    if sign == "" {
      assert t == digits;
    } else {
      assert t[1..] == digits && t[0] == sign[0];
    }
  }

  /** A whole number may have a sign, and space around it. */
  lemma PaddedIntReads(before: string, sign: string, n: nat, after: string)
    requires AllSpace(before) && AllSpace(after) && sign in {"", "+", "-"} && |PrintNat(n)| <= MAX_INT_DIGITS
    ensures ParseInt(before + (sign + PrintNat(n)) + after) == Some(Signed(sign, n))
  {
    hide ParseInt, PrintNat, DigitsValue, Strip;
    var digits := PrintNat(n);
    var t := sign + digits;
    PrintedNatReads(n);
    assert t[|t| - 1] == digits[|digits| - 1];
    assert t[0] == if sign == "" then digits[0] else sign[0];
    StripPadded(before, t, after);
    SignedTextReads(before + t + after, sign, digits);
  }

  /** A quantity is any whole number that is not negative; text that is no whole number, and a negative one,
      are refused with their own messages. */
  lemma QuantityReads(before: string, sign: string, n: nat, after: string)
    requires AllSpace(before) && AllSpace(after) && sign in {"", "+", "-"} && |PrintNat(n)| <= MAX_INT_DIGITS
    ensures ParseQuantity(before + (sign + PrintNat(n)) + after)
            == if sign == "-" && n > 0 then Bad(QuantityNegative) else Good(n)
  {
    hide ParseInt, PrintNat;
    PaddedIntReads(before, sign, n, after);
  }

  lemma NoDigitsNoNumber(raw: string)
    requires forall i :: 0 <= i < |raw| ==> !IsDigit(raw[i])
    ensures ParseInt(raw) == None && ParseQuantity(raw) == Bad(QuantityInvalid)
  {
    StripKeepsChars(raw);
  }

  /** One underscore may stand between two digits, and nowhere else; and only so many digits are converted. */
  lemma UnderscoresRead(high: string, low: string)
    requires high != "" && low != "" && AllDigits(high) && AllDigits(low)
    ensures ParseInt(high + "_" + low)
            == if |high + low| <= MAX_INT_DIGITS then Some(DigitsValue(high + low)) else None
    ensures ParseInt(high + "__" + low) == None && ParseInt(high + "_") == None && ParseInt("_" + low) == None
  {
    hide DigitsValue, Strip, Without, ParseInt;
    OneUnderscore(high, low);
    OddUnderscores(high, low);
  }

  lemma OddUnderscores(high: string, low: string)
    requires high != "" && low != "" && AllDigits(high) && AllDigits(low)
    ensures ParseInt(high + "__" + low) == None && ParseInt(high + "_") == None && ParseInt("_" + low) == None
  {
    hide DigitsValue, Strip, Without;
    var twice := high + "__" + low;
    assert twice[|twice| - 1] == low[|low| - 1];
    assert twice[|high|] == '_' && twice[|high| + 1] == '_';
    StripTight(twice);
    StripTight(high + "_");
    StripTight("_" + low);
  }

  lemma OneUnderscore(high: string, low: string)
    requires high != "" && low != "" && AllDigits(high) && AllDigits(low)
    ensures ParseInt(high + "_" + low)
            == if |high + low| <= MAX_INT_DIGITS then Some(DigitsValue(high + low)) else None
  {
    hide DigitsValue, Strip, Without;
    var text := high + "_" + low;
    assert text[|text| - 1] == low[|low| - 1];
    StripTight(text);
    Ungrouped(high, low);
    assert forall i :: 0 <= i < |text| ==> IsDigit(text[i]) || text[i] == '_' by {
      assert forall i :: 0 <= i < |text| ==>
        text[i] == if i < |high| then high[i] else if i == |high| then '_' else low[i - |high| - 1];
    }
    assert GroupedDigits(text) by {
      assert forall i :: |high| < i < |text| ==> text[i] == low[i - |high| - 1];
      assert forall i :: 0 <= i < |high| ==> text[i] == high[i];
    }
  }

  lemma Ungrouped(high: string, low: string)
    requires AllDigits(high) && AllDigits(low)
    ensures Without(high + "_" + low, '_') == high + low
  {
    WithoutConcat(high + "_", low, '_');
    WithoutConcat(high, "_", '_');
    WithoutAbsent(high, '_');
    WithoutAbsent(low, '_');
    assert high + "" == high;
  }

  lemma {:induction false} StripLeftIsSuffix(s: string)
    ensures |StripLeft(s)| <= |s| && StripLeft(s) == s[|s| - |StripLeft(s)|..]
  {
    if s != "" && IsSpace(s[0]) {
      StripLeftIsSuffix(s[1..]);
    }
  }

  lemma {:induction false} StripRightIsPrefix(s: string)
    ensures |StripRight(s)| <= |s| && StripRight(s) == s[..|StripRight(s)|]
  {
    if s != "" && IsSpace(s[|s| - 1]) {
      StripRightIsPrefix(s[..|s| - 1]);
    }
  }

  lemma StripKeepsChars(s: string)
    ensures forall i :: 0 <= i < |Strip(s)| ==> Strip(s)[i] in s
  {
    StripLeftIsSuffix(s);
    StripRightIsPrefix(StripLeft(s));
  }

  // ------------------------------------------------------ names and confirmations

  /** A product name is taken without the space around it, from two to a hundred characters. */
  lemma NameReads(before: string, name: string, after: string)
    requires AllSpace(before) && AllSpace(after) && Tight(name)
    ensures ParseProductName(before + name + after)
            == if 2 <= |name| <= 100 then Good(name) else Bad(ProductNameInvalid)
  {
    StripPadded(before, name, after);
  }

  lemma LowerIsTight(word: string)
    requires Tight(ToLower(word))
    ensures Tight(word)
  {
    assert ToLower(word)[0] == ToLowerChar(word[0]);
    assert ToLower(word)[|word| - 1] == ToLowerChar(word[|word| - 1]);
  }

  /** Yes and no in both languages, by letter or by number, in any case and with any space around them. */
  lemma ConfirmationReads(before: string, word: string, after: string)
    requires AllSpace(before) && AllSpace(after)
    ensures ToLower(word) in {"yes", "y", "ndio", "1"} ==>
      ParseConfirmation(before + word + after) == Parsed.Good(true)
    ensures ToLower(word) in {"no", "n", "zii", "2"} ==>
      ParseConfirmation(before + word + after) == Parsed.Good(false)
    ensures Tight(word) && ToLower(word) !in {"yes", "y", "ndio", "1", "no", "n", "zii", "2"} ==>
      ParseConfirmation(before + word + after) == Bad(ConfirmationInvalid)
  {
    if ToLower(word) in {"yes", "y", "ndio", "1", "no", "n", "zii", "2"} {
      LowerIsTight(word);
    }
    if Tight(word) {
      StripPadded(before, word, after);
    }
  }

  // ------------------------------------------------------------- decimal numbers

  /** "" or a point and digits. */
  predicate IsTail(tail: string) {
    tail == "" || (tail[0] == '.' && AllDigits(tail[1..]))
  }

  function Fraction(tail: string): string {
    if tail == "" then "" else tail[1..]
  }

  /** `E`, an optional sign, and digits; "" for none. */
  function ExponentText(present: bool, sign: string, e: nat): string {
    if present then "E" + sign + PrintNat(e) else ""
  }

  function ExponentValue(present: bool, sign: string, e: nat): int {
    if present then Signed(sign, e) else 0
  }

  lemma ExponentReads(present: bool, sign: string, e: nat)
    requires sign in {"", "+", "-"}
    ensures ParseExponent(ExponentText(present, sign, e)) == Some(ExponentValue(present, sign, e))
  {
    if present {
      var text, digits := "E" + sign + PrintNat(e), PrintNat(e);
      PrintedNatReads(e);
      if sign == "" {
        assert text[1..] == digits && IsDigit(text[1]);
      } else {
        assert text[1] == sign[0] && text[2..] == digits;
      }
    }
  }

  lemma PointOf(whole: string, tail: string)
    requires AllDigits(whole) && IsTail(tail)
    ensures IndexOf(whole + tail, '.') == |whole|
    ensures (whole + tail)[..|whole|] == whole
    ensures tail != "" ==> (whole + tail)[|whole| + 1..] == Fraction(tail)
  {
    var text := whole + tail;
    assert forall i :: 0 <= i < |whole| ==> text[i] == whole[i];
    if tail != "" {
      assert text[|whole|] == '.';
    }
  }

  lemma MantissaReads(whole: string, tail: string)
    requires AllDigits(whole) && IsTail(tail) && whole + Fraction(tail) != ""
    ensures AllDigits(whole + Fraction(tail))
    ensures ParseMantissa(whole + tail) == Some((DigitsValue(whole + Fraction(tail)), |Fraction(tail)|))
  {
    hide DigitsValue, IndexOf;
    PointOf(whole, tail);
    if tail == "" {
      assert whole + tail == whole;
    }
  }

  lemma UnsignedReads(mantissa: string, exponent: string, coef: nat, scale: nat, value: int, negative: bool)
    requires mantissa != "" && forall i :: 0 <= i < |mantissa| ==> IsDigit(mantissa[i]) || mantissa[i] == '.'
    requires exponent == "" || exponent[0] == 'E'
    requires ParseMantissa(mantissa) == Some((coef, scale)) && ParseExponent(exponent) == Some(value)
    ensures ParseUnsigned(mantissa + exponent, negative) == Some(Finite(negative, coef, value - scale))
  {
    hide ParseMantissa, ParseExponent;
    var body := mantissa + exponent;
    assert body[0] == mantissa[0];
    assert forall i :: 0 <= i < |mantissa| ==> body[i] == mantissa[i];
    assert exponent != "" ==> body[|mantissa|] == 'E';
    assert IndexOf(body, 'E') == |mantissa|;
    assert body[..|mantissa|] == mantissa && body[|mantissa|..] == exponent;
  }

  lemma DecimalBodyReads(whole: string, tail: string, present: bool, esign: string, e: nat, negative: bool)
    requires AllDigits(whole) && IsTail(tail) && whole + Fraction(tail) != "" && esign in {"", "+", "-"}
    ensures AllDigits(whole + Fraction(tail))
    ensures ParseUnsigned(whole + tail + ExponentText(present, esign, e), negative)
            == Some(Finite(negative, DigitsValue(whole + Fraction(tail)),
                           ExponentValue(present, esign, e) - |Fraction(tail)|))
  {
    hide ParseMantissa, ParseExponent, ParseUnsigned, DigitsValue;
    MantissaReads(whole, tail);
    ExponentReads(present, esign, e);
    var mantissa := whole + tail;
    forall i | 0 <= i < |mantissa| ensures IsDigit(mantissa[i]) || mantissa[i] == '.' {
      assert mantissa[i] == if i < |whole| then whole[i] else tail[i - |whole|];
      assert tail != "" ==> forall j :: 0 < j < |tail| ==> tail[j] == tail[1..][j - 1];
    }
    UnsignedReads(mantissa, ExponentText(present, esign, e), DigitsValue(whole + Fraction(tail)),
                  |Fraction(tail)|, ExponentValue(present, esign, e), negative);
  }

  lemma PlainBody(whole: string, tail: string, present: bool, esign: string, e: nat)
    requires AllDigits(whole) && IsTail(tail) && whole + Fraction(tail) != "" && esign in {"", "+", "-"}
    ensures var body := whole + tail + ExponentText(present, esign, e);
            && body != "" && body[0] != '+' && body[0] != '-' && '_' !in body
            && forall i :: 0 <= i < |body| ==> !IsSpace(body[i])
  {
    var text := ExponentText(present, esign, e);
    PrintedNatReads(e);
    assert forall i :: 0 <= i < |text| ==> text[i] in {'E', '+', '-'} || IsDigit(text[i]);
    var body := whole + tail + text;
    forall i | 0 <= i < |body| ensures body[i] in {'E', '+', '-', '.'} || IsDigit(body[i]) {
      if i >= |whole| + |tail| {
        assert body[i] == text[i - |whole| - |tail|];
      } else if i >= |whole| {
        assert body[i] == tail[i - |whole|];
      }
    }
    assert body[0] == if whole != "" then whole[0] else tail[0];
  }

  /** A sign goes before whatever the rest reads as. */
  lemma SignedDecimalReads(sign: string, body: string)
    requires sign in {"", "+", "-"} && body != "" && body[0] != '+' && body[0] != '-' && '_' !in body
    requires forall i :: 0 <= i < |body| ==> !IsSpace(body[i])
    ensures ParseDecimal(sign + body) == ParseUnsigned(body, sign == "-")
  {
    hide ParseUnsigned, Strip, Without;
    var text := sign + body;
    assert text[|text| - 1] == body[|body| - 1];
    StripTight(text);
    WithoutAbsent(text, '_');
    if sign == "" {
      assert text == body;
    } else {
      assert text[1..] == body && text[0] == sign[0];
    }
  }

  /** Every way to write a decimal number is read as that number: its sign, the digits of both parts as the
      coefficient, and the exponent less the places after the point. */
  lemma DecimalReads(
    sign: string, whole: string, tail: string, present: bool, esign: string, e: nat)
    requires sign in {"", "+", "-"} && esign in {"", "+", "-"}
    requires AllDigits(whole) && IsTail(tail) && whole + Fraction(tail) != ""
    ensures AllDigits(whole + Fraction(tail))
    ensures ParseDecimal(sign + (whole + tail + ExponentText(present, esign, e)))
            == Some(Finite(sign == "-", DigitsValue(whole + Fraction(tail)),
                           ExponentValue(present, esign, e) - |Fraction(tail)|))
  {
    hide ParseUnsigned, ParseDecimal, ExponentText, DigitsValue, Signed;
    PlainBody(whole, tail, present, esign, e);
    DecimalBodyReads(whole, tail, present, esign, e, sign == "-");
    SignedDecimalReads(sign, whole + tail + ExponentText(present, esign, e));
  }

  // --------------------------------------------------------------------- prices

  /** "", or the name of the currency in any case, with or without a point, and any space after it. */
  predicate IsCurrency(word: string, point: string, space: string) {
    if word == "" then point == "" && space == ""
    else ToUpper(word) in {"KES", "KSH"} && point in {"", "."} && AllSpace(space)
  }

  lemma UpperConcat(a: string, b: string)
    ensures ToUpper(a + b) == ToUpper(a) + ToUpper(b)
  {
  }

  lemma UpperLength(word: string)
    ensures |ToUpper(word)| == |word|
  {
  }

  lemma CurrencyGoes(word: string, point: string, space: string, rest: string)
    requires IsCurrency(word, point, space) && rest != "" && IsDigit(rest[0])
    ensures StripCurrency(ToUpper(word) + point + space + rest) == rest
  {
    hide ToUpper;
    UpperLength(word);
    var upper := ToUpper(word);
    var text := upper + point + space + rest;
    if word == "" {
      assert text == rest;
    } else {
      assert text[..3] == upper;
      if point == "." {
        assert text[3..][0] == '.' && text[3..][1..] == space + rest;
      } else {
        assert text[3..] == space + rest;
        assert (space + rest)[0] == if space != "" then space[0] else rest[0];
      }
      StripsLeft(space, rest);
    }
  }

  lemma ShillingsGo(money: string, gap: string, slash: bool)
    requires money != "" && IsDigit(money[|money| - 1]) && AllSpace(gap) && (slash || gap == "")
    ensures StripSlashEquals(money + gap + (if slash then "/=" else "")) == money + gap
  {
    if slash {
      var text := money + gap + "/=";
      assert text[|text| - 2..] == "/=" && text[..|text| - 2] == money + gap;
    } else {
      assert money + gap + "" == money;
      SlashStrips(money, false);
      assert money + "" == money;
    }
  }

  lemma {:induction false} SpacesStay(pad: string)
    requires AllSpace(pad)
    ensures ToUpper(pad) == pad && Without(pad, ',') == pad
  {
    if pad != "" {
      SpacesStay(pad[1..]);
      assert ToUpper(pad) == pad;
    }
  }

  lemma PointStays(point: string)
    requires point in {"", "."}
    ensures ToUpper(point) == point
  {
  }

  lemma MoneyStays(money: string, gap: string, slash: bool)
    requires MoneyText(money) && AllSpace(gap)
    ensures var tail := money + gap + (if slash then "/=" else ""); ToUpper(tail) == tail
  {
    UpperNeutral(money + gap + (if slash then "/=" else ""));
  }

  /** The cleaned text is the amount, however the price is spelled. */
  lemma PriceCleans(
    before: string, word: string, point: string, space: string, money: string, gap: string, slash: bool, after: string)
    requires AllSpace(before) && AllSpace(after) && AllSpace(gap) && (slash || gap == "")
    requires IsCurrency(word, point, space) && MoneyText(money) && Tight(Without(money, ','))
    ensures var tail := money + gap + (if slash then "/=" else "");
            CleanPrice(before + (word + point + space + tail) + after) == Without(money, ',')
  {
    hide StripCurrency, StripSlashEquals, Without, Strip, ToUpper, StripLeft, StripRight;
    var tail := money + gap + (if slash then "/=" else "");
    var text := word + point + space + tail;
    assert tail[0] == money[0];
    TightPrice(word, point, space, tail, money, gap, slash);
    StripPadded(before, text, after);
    UpperConcat(word + point + space, tail);
    UpperConcat(word + point, space);
    UpperConcat(word, point);
    SpacesStay(space);
    MoneyStays(money, gap, slash);
    PointStays(point);
    CurrencyGoes(word, point, space, tail);
    ShillingsGo(money, gap, slash);
    WithoutConcat(money, gap, ',');
    SpacesStay(gap);
    StripPadded("", Without(money, ','), gap);
    assert "" + Without(money, ',') + gap == Without(money, ',') + gap;
  }

  lemma TightPrice(
    word: string, point: string, space: string, tail: string, money: string, gap: string, slash: bool)
    requires IsCurrency(word, point, space) && MoneyText(money) && (slash || gap == "")
    requires tail == money + gap + (if slash then "/=" else "")
    ensures Tight(word + point + space + tail)
  {
    var text := word + point + space + tail;
    assert text[|text| - 1] == tail[|tail| - 1];
    assert tail[|tail| - 1] == if slash then '=' else money[|money| - 1];
    if word == "" {
      assert text == tail && text[0] == money[0];
    } else {
      assert ToUpper(word)[0] == 'K' && text[0] == word[0];
    }
  }

  /** Every positive amount that the bot prints is read back in every spelling: with the currency before it in
      any case, with or without a point and space, the shilling sign after it, and space all around. */
  lemma SpelledPriceParses(
    cents: nat, before: string, word: string, point: string, space: string, gap: string, slash: bool, after: string)
    requires 0 < cents < Pow10(PRECISION)
    requires AllSpace(before) && AllSpace(after) && AllSpace(gap) && (slash || gap == "")
    requires IsCurrency(word, point, space)
    ensures var tail := PrintMoney(cents) + gap + (if slash then "/=" else "");
            ParsePrice(before + (word + point + space + tail) + after) == Good(cents)
  {
    hide ParseDecimal, CleanPrice, IsCurrency, PrintMoney, Without, Strip;
    var money := PrintMoney(cents);
    PrintedMoneyIsMoneyText(cents);
    PrintedMoneyIsTight(cents);
    PriceCleans(before, word, point, space, money, gap, slash, after);
    PlainMoneyReads(cents);
    StripTight(Without(money, ','));
    assert Pow10(0) == 1;
  }

  lemma PrintedMoneyIsTight(cents: nat)
    ensures Tight(Without(PrintMoney(cents), ','))
  {
    PlainMoney(cents);
    GroupedReads(cents / 100);
  }

  lemma NoCurrencyStays(text: string)
    requires text != "" && text[0] != 'K'
    ensures StripCurrency(text) == text
  {
    hide StripLeft;
    assert |text| >= 3 ==> text[..3][0] == text[0];
  }

  lemma NoShillingsStay(text: string)
    requires text != "" && text[|text| - 1] != '='
    ensures StripSlashEquals(text) == text
  {
    if |text| >= 2 {
      assert text[|text| - 2..][1] == text[|text| - 1];
    }
  }

  lemma WordCleans(word: string, upper: string, digits: string)
    requires ToUpper(word) == upper && Tight(word) && Tight(upper) && upper[0] != 'K' && ',' !in upper
    requires upper[|upper| - 1] != '=' && AllDigits(digits)
    ensures CleanPrice(word + digits) == upper + digits
  {
    hide Strip, Without, ToUpper, StripCurrency, StripSlashEquals;
    var raw, text := word + digits, upper + digits;
    assert raw[|raw| - 1] == if digits == "" then word[|word| - 1] else digits[|digits| - 1];
    assert text[|text| - 1] == if digits == "" then upper[|upper| - 1] else digits[|digits| - 1];
    assert raw[0] == word[0] && text[0] == upper[0];
    StripTight(raw);
    UpperConcat(word, digits);
    UpperNeutral(digits);
    NoCurrencyStays(text);
    NoShillingsStay(text);
    WithoutAbsent(text, ',');
    StripTight(text);
  }

  lemma Words()
    ensures ToUpper("nan") == "NAN" && ToUpper("snan") == "SNAN"
    ensures ToUpper("inf") == "INF" && ToUpper("-infinity") == "-INFINITY"
  {
  }

  /** What is no finite number is no price: infinities and signalling NaNs are refused, and a quiet NaN, with or
      without digits behind it, breaks the message off. */
  lemma NoFinitePrice(digits: string)
    requires AllDigits(digits)
    ensures ParsePrice("nan" + digits) == Raises && ParsePrice("snan" + digits) == Bad(PriceInvalid)
    ensures ParsePrice("inf") == Bad(PriceInvalid) && ParsePrice("-infinity") == Bad(PriceInvalid)
  {
    hide ParseDecimal, CleanPrice, ToUpper;
    Words();
    WordCleans("nan", "NAN", digits);
    WordCleans("snan", "SNAN", digits);
    WordCleans("inf", "INF", "");
    WordCleans("-infinity", "-INFINITY", "");
    assert "inf" + "" == "inf" && "INF" + "" == "INF";
    assert "-infinity" + "" == "-infinity" && "-INFINITY" + "" == "-INFINITY";
    SpecialDecimals(digits);
  }

  lemma SpecialDecimals(digits: string)
    requires AllDigits(digits)
    ensures ParseDecimal("NAN" + digits) == Some(QuietNaN) && ParseDecimal("SNAN" + digits) == Some(SignalingNaN)
    ensures ParseDecimal("INF") == Some(Infinity) && ParseDecimal("-INFINITY") == Some(Infinity)
  {
    hide Strip, Without, ParseMantissa, ParseExponent;
    StripTight("INF");
    StripTight("-INFINITY");
    WithoutAbsent("INF", '_');
    WithoutAbsent("-INFINITY", '_');
    assert "-INFINITY"[1..] == "INFINITY";
    NanReads("NAN", digits);
    NanReads("SNAN", digits);
  }

  lemma NanReads(word: string, digits: string)
    requires AllDigits(digits) && (word == "NAN" || word == "SNAN")
    ensures ParseDecimal(word + digits) == Some(if word == "NAN" then QuietNaN else SignalingNaN)
  {
    hide Strip, Without, ParseMantissa, ParseExponent;
    var text := word + digits;
    assert text[|text| - 1] == if digits == "" then 'N' else digits[|digits| - 1];
    StripTight(text);
    WithoutAbsent(text, '_');
    assert text[0] == word[0] && text[..|word|] == word && text[|word|..] == digits;
    if word == "SNAN" {
      assert text[..3][0] == 'S';
    }
  }

  // -------------------------------------------------------------- printed amounts

  lemma {:induction false} GroupedPlain(n: nat)
    ensures Without(PrintGrouped(n), ',') == PrintNat(n)
  {
    PrintedNatReads(n);
    if n < 1000 {
      WithoutAbsent(PrintNat(n), ',');
    } else {
      hide PrintNat, Without;
      var high, low := PrintGrouped(n / 1000), Pad3(n % 1000);
      GroupedPlain(n / 1000);
      WithoutConcat3(high, ",", low, ',');
      Pad3Reads(n % 1000);
      WithoutAbsent(low, ',');
      OnlyComma();
      ThreeMoreDigits(n);
      assert PrintNat(n / 1000) + "" + low == PrintNat(n / 1000) + low;
    }
  }

  lemma OnlyComma()
    ensures Without(",", ',') == ""
  {
  }

  /** The separators stand before every third digit from the end, and nowhere else. */
  predicate CommasInPlace(s: string) {
    forall i :: 0 <= i < |s| ==> (s[i] == ',' <==> (|s| - i) % 4 == 0)
  }

  lemma CommasBeforeThree(high: string, low: string)
    requires CommasInPlace(high) && |low| == 3 && AllDigits(low)
    ensures CommasInPlace(high + "," + low)
  {
    var s := high + "," + low;
    assert |s| == |high| + 4;
    forall i | 0 <= i < |s| ensures s[i] == ',' <==> (|s| - i) % 4 == 0 {
      if i < |high| {
        assert s[i] == high[i];
        FourOn(|high| - i);
        assert |s| - i == |high| - i + 4;
      } else if i == |high| {
        assert s[i] == ',' && |s| - i == 4;
      } else {
        assert s[i] == low[i - |high| - 1] && IsDigit(low[i - |high| - 1]);
        assert 1 <= |s| - i <= 3;
      }
    }
  }

  lemma {:induction false} GroupedCommas(n: nat)
    ensures CommasInPlace(PrintGrouped(n))
  {
    if n < 1000 {
      PrintedNatReads(n);
      ShortNumbers(n);
    } else {
      hide PrintNat;
      GroupedCommas(n / 1000);
      Pad3Reads(n % 1000);
      CommasBeforeThree(PrintGrouped(n / 1000), Pad3(n % 1000));
    }
  }

  lemma FourOn(d: nat)
    ensures (d + 4) % 4 == d % 4
  {
  }

  /** Printed amounts are grouped by thousands: the plain number, with separators in their places. */
  lemma GroupsOfThree(n: nat)
    ensures Without(PrintGrouped(n), ',') == PrintNat(n) && CommasInPlace(PrintGrouped(n))
  {
    GroupedPlain(n);
    GroupedCommas(n);
  }

  lemma ShortNumbers(n: nat)
    requires n < 1000
    ensures |PrintNat(n)| <= 3
  {
    if n >= 100 {
      assert PrintNat(n / 100) == [DigitChar(n / 100)];
    }
  }

  lemma LastDigit(n: nat)
    requires n >= 10
    ensures PrintNat(n) == PrintNat(n / 10) + [DigitChar(n % 10)]
  {
  }

  lemma ThreeDigits(n: nat)
    ensures n / 10 / 10 / 10 == n / 1000
    ensures n % 1000 / 100 == n / 10 / 10 % 10 && n % 1000 / 10 % 10 == n / 10 % 10 && n % 1000 % 10 == n % 10
  {
  }

  lemma ThreeMoreDigits(n: nat)
    requires n >= 1000
    ensures PrintNat(n) == PrintNat(n / 1000) + Pad3(n % 1000)
  {
    hide PrintNat;
    LastDigit(n);
    LastDigit(n / 10);
    LastDigit(n / 10 / 10);
    ThreeDigits(n);
    var digits := [DigitChar(n / 10 / 10 % 10)] + [DigitChar(n / 10 % 10)] + [DigitChar(n % 10)];
    assert digits == Pad3(n % 1000);
    assert PrintNat(n) == PrintNat(n / 1000) + digits;
  }

  lemma TwoLastDigits(cents: nat)
    ensures cents % 100 == 10 * (cents / 10 % 10) + cents % 10
  {
  }

  /** And an amount has two digits after its point. */
  lemma TwoDecimals(cents: nat)
    ensures var s := PrintMoney(cents);
            && |s| >= 4 && s[|s| - 3] == '.' && s[..|s| - 3] == PrintGrouped(cents / 100)
            && AllDigits(s[|s| - 2..]) && DigitsValue(s[|s| - 2..]) == cents % 100
  {
    hide PrintGrouped, DigitsValue, Without;
    GroupedReads(cents / 100);
    TwoDigitsRead(cents / 10 % 10, cents % 10);
    TwoLastDigits(cents);
    var s, low := PrintMoney(cents), [DigitChar(cents / 10 % 10), DigitChar(cents % 10)];
    assert s[|s| - 2..] == low;
  }
}
