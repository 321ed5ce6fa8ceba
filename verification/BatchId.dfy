/** The text hashed into an analysis batch id (arena/live/fair_value_bus.py):
    a domain tag, the market, the exact price and the sorted article URLs,
    joined by NUL characters. SHA-256 itself is not modelled. */
module BatchId {
  import opened Wrappers
  import opened Doubles
  import opened Sorting
  import opened NewsFeed

  // ------------------------------------------------------- numbers as text

  function Digit(n: nat): (c: char)
    requires n < 16
    ensures '0' <= c <= 'f'
  {
    (if n < 10 then 48 + n else 87 + n) as char
  }

  predicate AllDigits(text: string) {
    forall i :: 0 <= i < |text| ==> '0' <= text[i] <= 'f'
  }

  /** Decimal text of `n`, without leading zeros. */
  function Digits(n: nat): (text: string)
    ensures text != [] && AllDigits(text)
  {
    if n < 10 then [Digit(n)] else Digits(n / 10) + [Digit(n % 10)]
  }

  /** Exactly `width` hexadecimal digits. */
  function FixedHex(n: nat, width: nat): (text: string)
    ensures |text| == width && AllDigits(text)
  {
    if width == 0 then [] else FixedHex(n / 16, width - 1) + [Digit(n % 16)]
  }

  /** `str(i)`. */
  function IntText(i: int): string {
    if i < 0 then "-" + Digits(-i) else Digits(i)
  }

  /** `float.hex`. */
  function HexText(d: Double): string {
    if d.negative then "-" + MagnitudeText(d) else MagnitudeText(d)
  }

  lemma {:induction false} DigitsInjective(m: nat, n: nat)
    requires Digits(m) == Digits(n)
    ensures m == n
  {
    var s, t := Digits(m), Digits(n);
    assert s[|s| - 1] == Digit(m % 10) && t[|t| - 1] == Digit(n % 10);
    if m >= 10 && n >= 10 {
      assert s[..|s| - 1] == Digits(m / 10) && t[..|t| - 1] == Digits(n / 10);
      DigitsInjective(m / 10, n / 10);
    }
  }

  lemma {:induction false} FixedHexInjective(m: nat, n: nat, width: nat)
    requires m < Pow16(width) && n < Pow16(width)
    requires FixedHex(m, width) == FixedHex(n, width)
    ensures m == n
  {
    if width > 0 {
      var s, t := FixedHex(m, width), FixedHex(n, width);
      assert s[..width - 1] == FixedHex(m / 16, width - 1) && t[..width - 1] == FixedHex(n / 16, width - 1);
      assert s[width - 1] == Digit(m % 16) && t[width - 1] == Digit(n % 16);
      FixedHexInjective(m / 16, n / 16, width - 1);
    }
  }

  function Pow16(width: nat): (p: nat)
    ensures p > 0
  {
    if width == 0 then 1 else 16 * Pow16(width - 1)
  }

  lemma IntTextInjective(i: int, j: int)
    requires IntText(i) == IntText(j)
    ensures i == j
  {
    SignOfIntText(i);
    SignOfIntText(j);
    if i < 0 {
      DigitsInjective(-i, -j);
    } else {
      DigitsInjective(i, j);
    }
  }

  lemma SignOfIntText(i: int)
    ensures i < 0 ==> IntText(i)[0] == '-' && IntText(i)[1..] == Digits(-i)
    ensures i >= 0 ==> '0' <= IntText(i)[0] <= 'f'
  {
  }

  // Two texts cut at their first occurrence of a separator agree piecewise.
  lemma {:induction false} CutAtSeparator(a: string, b: string, x: string, y: string, separator: char)
    requires separator !in a && separator !in b
    requires a + [separator] + x == b + [separator] + y
    ensures a == b && x == y
  {
    var s := a + [separator] + x;
    assert s[|a|] == separator;
    assert s[|b|] == separator;
    assert forall i :: 0 <= i < |a| ==> s[i] == a[i] != separator;
    assert forall i :: 0 <= i < |b| ==> s[i] == b[i] != separator;
    assert a == s[..|a|] && b == s[..|b|];
    assert x == s[|a| + 1..] && y == s[|b| + 1..];
  }

  function PowerText(power: int): string {
    if power < 0 then IntText(power) else "+" + IntText(power)
  }

  lemma PowerTextInjective(i: int, j: int)
    requires PowerText(i) == PowerText(j)
    ensures i == j
  {
    SignOfIntText(i);
    SignOfIntText(j);
    if i >= 0 {
      assert PowerText(i)[1..] == IntText(i) && PowerText(j)[1..] == IntText(j);
    }
    IntTextInjective(i, j);
  }

  function Power(d: Double): int {
    if d.exponent == 0 then -1022 else d.exponent - 1023
  }

  /** What follows the sign. */
  function MagnitudeText(d: Double): string {
    if d.exponent == 0 && d.fraction == 0 then "0x0.0p+0"
    else (if d.exponent == 0 then "0x0." else "0x1.") + FixedHex(d.fraction, 13) + "p" + PowerText(Power(d))
  }

  lemma MagnitudeTextInjective(d: Double, e: Double)
    requires MagnitudeText(d) == MagnitudeText(e)
    ensures d.exponent == e.exponent && d.fraction == e.fraction
  {
    MagnitudeParts(d);
    MagnitudeParts(e);
    if (d.exponent > 0 || d.fraction > 0) && (e.exponent > 0 || e.fraction > 0) {
      FractionInjective(d.fraction, e.fraction);
      PowerTextInjective(Power(d), Power(e));
    }
  }

  lemma MagnitudeParts(d: Double)
    ensures d.exponent == 0 && d.fraction == 0 ==> |MagnitudeText(d)| == 8
    ensures d.exponent > 0 || d.fraction > 0 ==>
      var s := MagnitudeText(d);
      && |s| > 18
      && s[2] == (if d.exponent == 0 then '0' else '1')
      && s[4..17] == FixedHex(d.fraction, 13)
      && s[18..] == PowerText(Power(d))
  {
    if d.exponent > 0 || d.fraction > 0 {
      var lead := if d.exponent == 0 then "0x0." else "0x1.";
      var hex, rest := FixedHex(d.fraction, 13), PowerText(Power(d));
      assert MagnitudeText(d) == lead + hex + "p" + rest;
      assert (lead + hex + "p" + rest)[4..17] == hex;
      assert (lead + hex + "p" + rest)[18..] == rest;
    }
  }

  lemma FractionInjective(m: nat, n: nat)
    requires m < FRACTION_LIMIT && n < FRACTION_LIMIT && FixedHex(m, 13) == FixedHex(n, 13)
    ensures m == n
  {
    Pow16Of13();
    FixedHexInjective(m, n, 13);
  }

  lemma Pow16Of13()
    ensures Pow16(13) == FRACTION_LIMIT
  {
  }

  /** `float.hex` tells all finite floats apart, including the two zeros. */
  lemma HexTextInjective(d: Double, e: Double)
    requires HexText(d) == HexText(e)
    ensures d == e
  {
    assert MagnitudeText(d)[0] == '0' && MagnitudeText(e)[0] == '0';
    if d.negative && e.negative {
      assert HexText(d)[1..] == MagnitudeText(d) && HexText(e)[1..] == MagnitudeText(e);
    }
    MagnitudeTextInjective(d, e);
  }

  lemma NumbersAreNulFree(i: int, d: Double)
    ensures '\0' !in IntText(i) && '\0' !in HexText(d)
  {
    assert AllDigits(Digits(if i < 0 then -i else i));
    PowerIsNulFree(Power(d));
    assert AllDigits(FixedHex(d.fraction, 13));
  }

  lemma PowerIsNulFree(power: int)
    ensures '\0' !in PowerText(power)
  {
    assert AllDigits(Digits(if power < 0 then -power else power));
  }

  // -------------------------------------------------------- ordering of URLs

  /** Python's order on strings: by code points, prefixes first. */
  predicate UpTo(a: string, b: string) {
    a == [] || (b != [] && (a[0] < b[0] || (a[0] == b[0] && UpTo(a[1..], b[1..]))))
  }

  lemma UpToTotal(a: string, b: string)
    ensures UpTo(a, b) || UpTo(b, a)
  {
  }

  lemma {:induction false} UpToAntisymmetric(a: string, b: string)
    requires UpTo(a, b) && UpTo(b, a)
    ensures a == b
  {
    if a != [] && b != [] {
      UpToAntisymmetric(a[1..], b[1..]);
      assert a == [a[0]] + a[1..] && b == [b[0]] + b[1..];
    }
  }

  lemma UpToTransitive(a: string, b: string, c: string)
    requires UpTo(a, b) && UpTo(b, c)
    ensures UpTo(a, c)
  {
  }

  lemma UpToIsTotalOrder()
    ensures TotalOrder(UpTo)
  {
    forall a, b
      ensures UpTo(a, b) || UpTo(b, a)
    {
      UpToTotal(a, b);
    }
    forall a, b, c | UpTo(a, b) && UpTo(b, c)
      ensures UpTo(a, c)
    {
      UpToTransitive(a, b, c);
    }
    forall a, b | UpTo(a, b) && UpTo(b, a)
      ensures a == b
    {
      UpToAntisymmetric(a, b);
    }
  }

  /** `sorted(urls)`. */
  function Sort(urls: seq<string>): seq<string> { SortBy(UpTo, urls) }

  lemma SortCounts(urls: seq<string>)
    ensures multiset(Sort(urls)) == multiset(urls)
  {
    UpToIsTotalOrder();
    SortSorts(UpTo, urls);
  }

  /** Sorting forgets the order and nothing else. */
  lemma SortIdentifies(a: seq<string>, b: seq<string>)
    ensures Sort(a) == Sort(b) <==> multiset(a) == multiset(b)
  {
    SortCounts(a);
    SortCounts(b);
    if multiset(a) == multiset(b) {
      UpToIsTotalOrder();
      SortSorts(UpTo, a);
      SortSorts(UpTo, b);
      SortedIsUnique(UpTo, Sort(a), Sort(b));
    }
  }

  // ------------------------------------------------------------- the material

  /** `"\0".join(parts)`. */
  function Join(parts: seq<string>): string
    requires parts != []
  {
    if |parts| == 1 then parts[0] else parts[0] + ['\0'] + Join(parts[1..])
  }

  lemma {:induction false} JoinInjective(p: seq<string>, q: seq<string>)
    requires p != [] && q != [] && Join(p) == Join(q)
    requires forall part :: part in p + q ==> '\0' !in part
    ensures p == q
  {
    assert p[0] in p + q && q[0] in p + q;
    assert |q| > 1 ==> Join(q)[|q[0]|] == '\0';
    assert |p| > 1 ==> Join(p)[|p[0]|] == '\0';
    if |p| > 1 && |q| > 1 {
      CutAtSeparator(p[0], q[0], Join(p[1..]), Join(q[1..]), '\0');
      forall part | part in p[1..] + q[1..]
        ensures '\0' !in part
      {
        assert part in p + q;
      }
      JoinInjective(p[1..], q[1..]);
    }
    assert p == [p[0]] + p[1..] && q == [q[0]] + q[1..];
  }

  function PriceText(price: Option<Double>): string {
    if price.None? then "none" else HexText(price.value)
  }

  function Urls(articles: seq<LiveArticle>): (urls: seq<string>)
    ensures |urls| == |articles| && forall i :: 0 <= i < |urls| ==> urls[i] == articles[i].url
  {
    seq(|articles|, i requires 0 <= i < |articles| => articles[i].url)
  }

  function Parts(market: int, articles: seq<LiveArticle>, price: Option<Double>): seq<string> {
    ["sybil/analysis-batch/v2", IntText(market), PriceText(price)] + Sort(Urls(articles))
  }

  function Material(market: int, articles: seq<LiveArticle>, price: Option<Double>): string {
    Join(Parts(market, articles, price))
  }

  lemma PriceTextInjective(p: Option<Double>, q: Option<Double>)
    requires PriceText(p) == PriceText(q)
    ensures p == q
  {
    if p.Some? && q.Some? {
      HexTextInjective(p.value, q.value);
    }
    assert p.Some? ==> HexText(p.value)[0] == '-' || HexText(p.value)[0] == '0';
    assert q.Some? ==> HexText(q.value)[0] == '-' || HexText(q.value)[0] == '0';
  }

  predicate NulFreeUrls(articles: seq<LiveArticle>) {
    forall i :: 0 <= i < |articles| ==> '\0' !in articles[i].url
  }

  lemma SortIsNulFree(articles: seq<LiveArticle>, i: nat)
    requires NulFreeUrls(articles) && i < |Sort(Urls(articles))|
    ensures '\0' !in Sort(Urls(articles))[i]
  {
    SortCounts(Urls(articles));
    assert Sort(Urls(articles))[i] in multiset(Sort(Urls(articles)));
    assert Sort(Urls(articles))[i] in multiset(Urls(articles));
  }

  lemma HeadIsNulFree(market: int, price: Option<Double>)
    ensures '\0' !in "sybil/analysis-batch/v2" && '\0' !in IntText(market) && '\0' !in PriceText(price)
  {
    NumbersAreNulFree(market, if price.Some? then price.value else RawDouble(false, 0, 0));
  }

  lemma PartsAreNulFree(market: int, articles: seq<LiveArticle>, price: Option<Double>)
    requires NulFreeUrls(articles)
    ensures forall part :: part in Parts(market, articles, price) ==> '\0' !in part
  {
    var urls := Sort(Urls(articles));
    HeadIsNulFree(market, price);
    forall i | 0 <= i < |urls|
      ensures '\0' !in urls[i]
    {
      SortIsNulFree(articles, i);
    }
    AllNulFree("sybil/analysis-batch/v2", IntText(market), PriceText(price), urls);
  }

  lemma AllNulFree(a: string, b: string, c: string, rest: seq<string>)
    requires '\0' !in a && '\0' !in b && '\0' !in c && forall i :: 0 <= i < |rest| ==> '\0' !in rest[i]
    ensures forall part :: part in [a, b, c] + rest ==> '\0' !in part
  {
  }

  /** The hashed text is equal exactly when market, price and the URLs, counted
      with repetition, are equal. */
  lemma MaterialIdentifiesBatch(
    m: int, a: seq<LiveArticle>, p: Option<Double>, n: int, b: seq<LiveArticle>, q: Option<Double>)
    requires NulFreeUrls(a) && NulFreeUrls(b)
    ensures Material(m, a, p) == Material(n, b, q) <==>
            m == n && p == q && multiset(Urls(a)) == multiset(Urls(b))
  {
    SortIdentifies(Urls(a), Urls(b));
    if Material(m, a, p) == Material(n, b, q) {
      var s, t := Parts(m, a, p), Parts(n, b, q);
      PartsAreNulFree(m, a, p);
      PartsAreNulFree(n, b, q);
      JoinInjective(s, t);
      assert s[1] == IntText(m) && t[1] == IntText(n) && s[2] == PriceText(p) && t[2] == PriceText(q);
      assert s[3..] == Sort(Urls(a)) && t[3..] == Sort(Urls(b));
      IntTextInjective(m, n);
      PriceTextInjective(p, q);
    }
  }
}
