/** That the text behind a batch id (arena/live/fair_value_bus.py) says what it should:
    its numerals read back as the market and the price, and its URLs stand in the order
    of their code points. */
module BatchText {
  import opened Wrappers
  import opened Reals
  import opened Doubles
  import opened Sorting
  import opened NewsFeed
  import opened BatchId

  // ----------------------------------------------------------------- numerals

  /** What a digit stands for, up to base sixteen. */
  function DigitValue(c: char): int {
    if '0' <= c <= '9' then c as int - '0' as int
    else if 'a' <= c <= 'f' then c as int - 'a' as int + 10
    else -1
  }

  lemma DigitReads(n: nat)
    requires n < 16
    ensures DigitValue(Digit(n)) == n
  {
  }

  function Read(text: string, base: nat): int {
    if text == [] then 0 else base * Read(text[..|text| - 1], base) + DigitValue(text[|text| - 1])
  }

  predicate Decimal(text: string) { forall i :: 0 <= i < |text| ==> '0' <= text[i] <= '9' }

  /** Decimal text reads back as the number, and has no leading zero. */
  lemma {:induction false} DigitsRead(n: nat)
    ensures Read(Digits(n), 10) == n && Decimal(Digits(n))
    ensures n > 0 ==> Digits(n)[0] != '0'
    ensures n == 0 ==> Digits(n) == "0"
  {
    if n < 10 {
      DigitReads(n);
      assert Digits(n)[..0] == [];
    } else {
      var text := Digits(n);
      assert text[..|text| - 1] == Digits(n / 10);
      DigitsRead(n / 10);
      DigitReads(n % 10);
    }
  }

  lemma {:induction false} FixedHexReads(n: nat, width: nat)
    requires n < Pow16(width)
    ensures Read(FixedHex(n, width), 16) == n
  {
    if width > 0 {
      var text := FixedHex(n, width);
      assert text[..width - 1] == FixedHex(n / 16, width - 1);
      FixedHexReads(n / 16, width - 1);
      DigitReads(n % 16);
    }
  }

  function Sign(negative: bool): string { if negative then "-" else "" }

  /** `str` of an integer: the sign, then the digits. */
  lemma IntTextReads(i: int)
    ensures var digits := Digits(if i < 0 then -i else i);
            && IntText(i) == Sign(i < 0) + digits
            && Decimal(digits) && Read(digits, 10) == (if i < 0 then -i else i)
  {
    DigitsRead(if i < 0 then -i else i);
  }

  /** The value that sign, leading digit, fraction digits and power stand for. */
  function Numeral(negative: bool, lead: char, hex: string, power: int): real {
    var size := Times(DigitValue(lead) as real + Read(hex, 16) as real / 4503599627370496.0, Pow2(power));
    if negative then -size else size
  }

  function Signed(up: char, n: int): int { if up == '-' then -n else n }

  lemma ValueReads(d: Double, lead: char, hex: string)
    requires lead == (if d.exponent == 0 then '0' else '1') && Read(hex, 16) == d.fraction
    ensures d.Value() == Numeral(d.negative, lead, hex, Power(d))
  {
    assert DigitValue('0') == 0 && DigitValue('1') == 1;
    assert Read(hex, 16) as real / 4503599627370496.0 == d.Stored();
    assert DigitValue(lead) as real + d.Stored() == d.Significand();
  }

  lemma ZeroReads(d: Double)
    requires d.exponent == 0 && d.fraction == 0
    ensures HexText(d) == Sign(d.negative) + "0x0.0p+0" && d.Value() == 0.0
  {
    TimesSmall(Pow2(-1022));
    assert d.Significand() == 0.0;
  }

  /** `float.hex` of a number other than zero: sign, leading digit, thirteen digits of
      the fraction and the power of two, which together are its value. */
  lemma HexTextReads(d: Double) returns (lead: char, hex: string, up: char, digits: string)
    requires d.exponent > 0 || d.fraction > 0
    ensures HexText(d) == Sign(d.negative) + ("0x" + [lead] + "." + hex + "p" + ([up] + digits))
    ensures |hex| == 13 && (up == '+' || up == '-') && Decimal(digits) && lead in {'0', '1'}
    ensures d.Value() == Numeral(d.negative, lead, hex, Signed(up, Read(digits, 10)))
  {
    var power := Power(d);
    lead, hex := FractionReads(d);
    ValueReads(d, lead, hex);
    up, digits := if power < 0 then '-' else '+', Digits(if power < 0 then -power else power);
    DigitsRead(if power < 0 then -power else power);
    PowerTextIs(power, up, digits);
  }

  lemma FractionReads(d: Double) returns (lead: char, hex: string)
    requires d.exponent > 0 || d.fraction > 0
    ensures lead == (if d.exponent == 0 then '0' else '1') && |hex| == 13 && Read(hex, 16) == d.fraction
    ensures MagnitudeText(d) == "0x" + [lead] + "." + hex + "p" + PowerText(Power(d))
  {
    lead, hex := if d.exponent == 0 then '0' else '1', FixedHex(d.fraction, 13);
    Pow16Of13();
    FixedHexReads(d.fraction, 13);
    MagnitudeTextIs(d, lead, hex, PowerText(Power(d)));
  }

  lemma PowerTextIs(power: int, up: char, digits: string)
    requires up == (if power < 0 then '-' else '+') && digits == Digits(if power < 0 then -power else power)
    ensures PowerText(power) == [up] + digits
  {
  }

  lemma MagnitudeTextIs(d: Double, lead: char, hex: string, power: string)
    requires d.exponent > 0 || d.fraction > 0
    requires lead == (if d.exponent == 0 then '0' else '1') && hex == FixedHex(d.fraction, 13)
    requires power == PowerText(Power(d))
    ensures MagnitudeText(d) == "0x" + [lead] + "." + hex + "p" + power
  {
    assert "0x" + [lead] + "." == if d.exponent == 0 then "0x0." else "0x1.";
  }

  // --------------------------------------------------------------------- URLs

  /** Where two texts first differ, or one ends. */
  predicate FirstDifference(a: string, b: string, i: nat) {
    && i <= |a| && i <= |b| && a[..i] == b[..i]
    && (i < |a| && i < |b| ==> a[i] != b[i])
  }

  /** The text that ends first, or has the smaller code point there, comes first. */
  lemma {:induction false} UpToMeans(a: string, b: string, i: nat)
    requires FirstDifference(a, b, i)
    ensures UpTo(a, b) <==> i == |a| || (i < |b| && a[i] < b[i])
    decreases i
  {
    if i > 0 {
      assert a[0] == a[..i][0] == b[..i][0] == b[0];
      assert a[1..][..i - 1] == a[..i][1..] == b[..i][1..] == b[1..][..i - 1];
      UpToMeans(a[1..], b[1..], i - 1);
    }
  }

  /** The URLs of a batch stand in that order, each as often as in the batch. */
  lemma UrlsAreSorted(urls: seq<string>, i: nat, j: nat)
    requires i < j < |Sort(urls)|
    ensures UpTo(Sort(urls)[i], Sort(urls)[j])
    ensures multiset(Sort(urls)) == multiset(urls)
  {
    UpToIsTotalOrder();
    SortSorts(UpTo, urls);
  }

  // ----------------------------------------------------------------- the text

  lemma JoinTwo(first: string, rest: seq<string>)
    requires rest != []
    ensures Join([first] + rest) == first + "\0" + Join(rest)
  {
    assert ([first] + rest)[1..] == rest;
  }

  /** Tag, market, price and URLs, with a NUL between each two of them. */
  lemma MaterialLayout(market: int, articles: seq<LiveArticle>, price: Option<Double>)
    ensures var urls := Sort(Urls(articles));
            var head := "sybil/analysis-batch/v2" + "\0" + (IntText(market) + "\0" + PriceText(price));
            && (urls == [] ==> Material(market, articles, price) == head)
            && (urls != [] ==>
                  Material(market, articles, price)
                  == "sybil/analysis-batch/v2" + "\0"
                     + (IntText(market) + "\0" + (PriceText(price) + "\0" + Join(urls))))
    ensures price.None? ==> PriceText(price) == "none"
  {
    var urls := Sort(Urls(articles));
    JoinTwo("sybil/analysis-batch/v2", [IntText(market), PriceText(price)] + urls);
    JoinTwo(IntText(market), [PriceText(price)] + urls);
    assert Parts(market, articles, price)
        == ["sybil/analysis-batch/v2"] + ([IntText(market), PriceText(price)] + urls);
    assert [IntText(market), PriceText(price)] + urls == [IntText(market)] + ([PriceText(price)] + urls);
    if urls == [] {
      assert [PriceText(price)] + urls == [PriceText(price)];
    } else {
      JoinTwo(PriceText(price), urls);
    }
  }
}
