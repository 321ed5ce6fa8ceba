/** Where the four makers quote, and which way their inventory moves the quotes: around
    the reference price with even holdings, away from what they hold too much of, and
    the same for YES and NO. */
module QuoteSkew {
  import opened Wrappers
  import opened Reals
  import opened Orders
  import opened Quotes
  import opened MarketMakers

  ghost predicate IsOdd(f: real -> real) { forall x, y :: x + y == 0.0 ==> f(x) + f(y) == 0.0 }

  ghost predicate IsIncreasing(f: real -> real) { forall x, y :: x < y ==> f(x) < f(y) }

  // ---------------------------------------------------------- the middle

  function Lowest(maker: Maker): real { if maker.AnchorMaker? then 0.02 else 0.05 }

  /** With as many YES as NO shares the middle is the reference price, clamped: the
      market's price, or for the makers with a memory the price they remember. */
  lemma EvenHoldingsQuoteTheReference(maker: Maker, tanh: real -> real, memory: Memory, sight: Sight)
    requires IsOdd(tanh) && sight.yes == sight.no
    ensures var price := sight.yesNanos as real / 1_000_000_000.0;
            var remembered := if sight.market in memory.anchor then memory.anchor[sight.market] else 0.5;
            QuoteMid(maker, tanh, memory, sight)
            == (match maker
                case AnchorMaker(_, _, _, _, _, _) => Clamp(price, 0.02, 0.98)
                case FlashMaker(_, _, _, _) => Clamp(price, 0.05, 0.95)
                case _ => Clamp(remembered, 0.05, 0.95))
  {
    OddAtZero(tanh);
    LeanOfNothing(maker, tanh, Reference(maker, memory, sight));
  }

  lemma OddAtZero(f: real -> real)
    requires IsOdd(f)
    ensures f(0.0) == 0.0
  {
    assert f(0.0) + f(0.0) == 0.0;
  }

  lemma LeanOfNothing(maker: Maker, tanh: real -> real, reference: real)
    requires tanh(0.0) == 0.0
    ensures Lean(maker, tanh, reference, 0) == 0.0
  {
    if !maker.FlashMaker? {
      TimesSmall(maker.skewFactor);
    }
    if maker.FlashMaker? {
      TimesSmall(maker.skewFactor);
    } else if maker.BalancedMaker? {
      var maxSkew := Min(reference, 1.0 - reference) * 0.2;
      TimesCommutes(maxSkew, 0.0);
      TimesSmall(maxSkew);
    }
  }

  // ------------------------------------------------------- which way it leans

  /** A skew against the excess, or none. */
  predicate Leans(maker: Maker) {
    match maker
    case AnchorMaker(_, _, limit, skew, _, _) => limit == 0 || skew == 0.0 || (skew > 0.0 <==> limit > 0)
    case FlashMaker(_, _, _, skew) => skew >= 0.0
    case BalancedMaker(_, _, limit, skew, _, _, _, _, _, _, _) => limit == 0 || skew >= 0.0
    case FastAnchorMaker(_, _, limit, skew, _, _, _, _) => limit <= 0 || skew >= 0.0
  }

  /** A skew that is felt at this reference price. */
  predicate LeansAt(maker: Maker, reference: real) {
    && Leans(maker) && maker.skewFactor != 0.0
    && (!maker.FlashMaker? ==> maker.maxPosition != 0)
    && (maker.FastAnchorMaker? ==> maker.maxPosition > 0)
    && (maker.BalancedMaker? ==> 0.025 <= reference <= 0.975)
  }

  lemma DivideOrder(a: real, b: real, c: real)
    requires a < b && c != 0.0
    ensures if c > 0.0 then a / c < b / c else a / c > b / c
  {
    var x, y := a / c, b / c;
    assert x * c == a && y * c == b;
    if c > 0.0 && x >= y {
      MulLe(y, x, c);
    }
    if c < 0.0 && x <= y {
      MulLe(x, y, -c);
    }
  }

  /** Multiplying an increasing step by a factor. */
  lemma ScaleOrder(a: real, b: real, k: real)
    requires a < b
    ensures k == 0.0 ==> Times(a, k) == 0.0 == Times(b, k)
    ensures k > 0.0 ==> Times(a, k) < Times(b, k)
    ensures k < 0.0 ==> Times(a, k) > Times(b, k)
  {
    if k > 0.0 {
      MulLt(a, b, k);
    } else if k < 0.0 {
      MulLt(a, b, -k);
    }
  }

  /** For two of the makers: the ratio of the excess to the limit decides. */
  lemma RatioLeanFalls(tanh: real -> real, limit: int, skew: real, net: int, more: int)
    requires IsIncreasing(tanh) && limit != 0 && net < more
    requires skew == 0.0 || (skew > 0.0 <==> limit > 0)
    ensures var before := -Times(tanh(net as real / limit as real), skew);
            var after := -Times(tanh(more as real / limit as real), skew);
            if skew == 0.0 then after == before else after < before
  {
    DivideOrder(net as real, more as real, limit as real);
    var x, y := tanh(net as real / limit as real), tanh(more as real / limit as real);
    if limit > 0 {
      ScaleOrder(x, y, skew);
    } else {
      ScaleOrder(y, x, skew);
    }
  }

  lemma BalancedLeanFalls(tanh: real -> real, skew: real, maxSkew: real, net: int, more: int)
    requires IsIncreasing(tanh) && maxSkew > 0.0 && net < more && skew >= 0.0
    ensures var before := -Times(maxSkew, tanh(Times(net as real, skew) * 0.01 / maxSkew));
            var after := -Times(maxSkew, tanh(Times(more as real, skew) * 0.01 / maxSkew));
            if skew == 0.0 then after == before else after < before
  {
    ScaleOrder(net as real, more as real, skew);
    var x, y := Times(net as real, skew) * 0.01, Times(more as real, skew) * 0.01;
    if x < y {
      DivideOrder(x, y, maxSkew);
      ScaleOrder(tanh(x / maxSkew), tanh(y / maxSkew), maxSkew);
      TimesCommutes(maxSkew, tanh(x / maxSkew));
      TimesCommutes(maxSkew, tanh(y / maxSkew));
    }
  }

  lemma LeanFalls(maker: Maker, tanh: real -> real, reference: real, net: int, more: int)
    requires IsIncreasing(tanh) && Leans(maker) && net < more
    ensures Lean(maker, tanh, reference, more) <= Lean(maker, tanh, reference, net)
    ensures LeansAt(maker, reference) ==> Lean(maker, tanh, reference, more) < Lean(maker, tanh, reference, net)
  {
    match maker
    case AnchorMaker(_, _, limit, skew, _, _) =>
      if limit != 0 { RatioLeanFalls(tanh, limit, skew, net, more); }
    case FlashMaker(_, _, _, skew) => ScaleOrder((-more) as real, (-net) as real, skew);
    case BalancedMaker(_, _, limit, skew, _, _, _, _, _, _, _) =>
      var maxSkew := Min(reference, 1.0 - reference) * 0.2;
      if maxSkew >= 0.005 && limit != 0 { BalancedLeanFalls(tanh, skew, maxSkew, net, more); }
    case FastAnchorMaker(_, _, limit, skew, _, _, _, _) =>
      if limit > 0 { RatioLeanFalls(tanh, limit, skew, net, more); }
  }

  function Fuller(sight: Sight, more: int): Sight { sight.(yes := sight.yes + more) }

  /** A lower lean gives no higher middle, and a lower one unless both are clamped. */
  predicate Lowered(before: real, after: real, lowest: real, strictly: bool) {
    && after <= before
    && (strictly ==> after < before || after == before == lowest || after == before == 1.0 - lowest)
  }

  lemma ClampFollows(a: real, b: real, lowest: real)
    requires b <= a && lowest < 0.5
    ensures Lowered(Clamp(a, lowest, 1.0 - lowest), Clamp(b, lowest, 1.0 - lowest), lowest, b < a)
  {
  }

  lemma MiddleIs(maker: Maker, tanh: real -> real, memory: Memory, sight: Sight, reference: real, lean: real)
    requires reference == Reference(maker, memory, sight)
    requires lean == Lean(maker, tanh, reference, sight.yes - sight.no)
    ensures QuoteMid(maker, tanh, memory, sight) == Clamp(reference + lean, Lowest(maker), 1.0 - Lowest(maker))
  {
  }

  /** The middle moves as the lean does, up to the clamps. */
  lemma MiddleFollowsLean(maker: Maker, tanh: real -> real, memory: Memory, a: Sight, b: Sight, high: real, low: real)
    requires Reference(maker, memory, a) == Reference(maker, memory, b)
    requires high == Lean(maker, tanh, Reference(maker, memory, a), a.yes - a.no)
    requires low == Lean(maker, tanh, Reference(maker, memory, a), b.yes - b.no)
    requires low <= high
    ensures Lowered(QuoteMid(maker, tanh, memory, a), QuoteMid(maker, tanh, memory, b), Lowest(maker), low < high)
  {
    var reference := Reference(maker, memory, a);
    MiddleIs(maker, tanh, memory, a, reference, high);
    MiddleIs(maker, tanh, memory, b, reference, low);
    ClampFollows(reference + high, reference + low, Lowest(maker));
  }

  lemma SameReference(maker: Maker, memory: Memory, sight: Sight, more: nat)
    ensures Reference(maker, memory, Fuller(sight, more)) == Reference(maker, memory, sight)
  {
  }

  /** More YES held: the middle does not rise, and where the skew is felt and no clamp
      binds it falls. */
  lemma MoreYesLowersTheMiddle(maker: Maker, tanh: real -> real, memory: Memory, sight: Sight, more: nat)
    requires IsIncreasing(tanh) && Leans(maker)
    ensures var before := QuoteMid(maker, tanh, memory, sight);
            var after := QuoteMid(maker, tanh, memory, Fuller(sight, more));
            && after <= before
            && (more > 0 && LeansAt(maker, Reference(maker, memory, sight)) ==>
                  after < before || after == before == Lowest(maker) || after == before == 1.0 - Lowest(maker))
  {
    var reference, net := Reference(maker, memory, sight), sight.yes - sight.no;
    if more > 0 {
      var high, low := Lean(maker, tanh, reference, net), Lean(maker, tanh, reference, net + more);
      LeanFalls(maker, tanh, reference, net, net + more);
      SameReference(maker, memory, sight, more);
      assert Fuller(sight, more).yes - Fuller(sight, more).no == net + more;
      MiddleFollowsLean(maker, tanh, memory, sight, Fuller(sight, more), high, low);
    }
  }

  lemma RatioLeanRises(tanh: real -> real, limit: int, skew: real)
    requires IsIncreasing(tanh) && tanh(0.0) == 0.0 && limit != 0 && skew != 0.0 && (skew > 0.0 <==> limit < 0)
    ensures -Times(tanh(1.0 / limit as real), skew) > 0.0
  {
    DivideOrder(0.0, 1.0, limit as real);
    assert 0.0 / limit as real == 0.0;
    var t := tanh(1.0 / limit as real);
    TimesSmall(skew);
    if limit > 0 { ScaleOrder(0.0, t, skew); } else { ScaleOrder(t, 0.0, skew); }
  }

  lemma BalancedLeanRises(tanh: real -> real, skew: real)
    requires IsIncreasing(tanh) && tanh(0.0) == 0.0 && skew < 0.0
    ensures -Times(0.1, tanh(Times(1.0, skew) * 0.01 / 0.1)) > 0.0
  {
    TimesSmall(skew);
    var t := tanh(Times(1.0, skew) * 0.01 / 0.1);
    assert t < 0.0;
    ScaleOrder(t, 0.0, 0.1);
    TimesSmall(0.1);
    TimesCommutes(0.1, t);
  }

  lemma WrongLean(maker: Maker, tanh: real -> real)
    requires IsIncreasing(tanh) && tanh(0.0) == 0.0 && !Leans(maker)
    ensures Lean(maker, tanh, 0.5, 1) > 0.0
  {
    match maker
    case AnchorMaker(_, _, limit, skew, _, _) => RatioLeanRises(tanh, limit, skew);
    case FlashMaker(_, _, _, skew) =>
      ScaleOrder(-1.0, 0.0, skew);
      TimesSmall(skew);
    case BalancedMaker(_, _, _, skew, _, _, _, _, _, _, _) => BalancedLeanRises(tanh, skew);
    case FastAnchorMaker(_, _, limit, skew, _, _, _, _) => RatioLeanRises(tanh, limit, skew);
  }

  const HALF_DOLLAR := Sight(0, 500_000_000, 0, 0)

  /** At half a dollar and with nothing held, one YES share raises the middle of a maker
      that leans the wrong way. */
  lemma WrongLeanRises(maker: Maker, tanh: real -> real)
    requires IsIncreasing(tanh) && IsOdd(tanh) && !Leans(maker)
    ensures QuoteMid(maker, tanh, NO_MEMORY, Fuller(HALF_DOLLAR, 1)) > QuoteMid(maker, tanh, NO_MEMORY, HALF_DOLLAR)
  {
    OddAtZero(tanh);
    LeanOfNothing(maker, tanh, 0.5);
    WrongLean(maker, tanh);
    assert Reference(maker, NO_MEMORY, HALF_DOLLAR) == 0.5 == Reference(maker, NO_MEMORY, Fuller(HALF_DOLLAR, 1));
    MiddleFollowsLean(maker, tanh, NO_MEMORY, Fuller(HALF_DOLLAR, 1), HALF_DOLLAR,
                      Lean(maker, tanh, 0.5, 1), Lean(maker, tanh, 0.5, 0));
  }

  /** Holding more YES never raises the middle, whatever is seen and remembered, exactly
      when the maker's skew has the right sign. */
  lemma LeansExactly(maker: Maker, tanh: real -> real)
    requires IsIncreasing(tanh) && IsOdd(tanh)
    ensures (forall memory, sight, more: nat {:trigger QuoteMid(maker, tanh, memory, Fuller(sight, more))} ::
               QuoteMid(maker, tanh, memory, Fuller(sight, more)) <= QuoteMid(maker, tanh, memory, sight))
       <==> Leans(maker)
  {
    if Leans(maker) {
      forall memory, sight, more: nat {:trigger QuoteMid(maker, tanh, memory, Fuller(sight, more))}
        ensures QuoteMid(maker, tanh, memory, Fuller(sight, more)) <= QuoteMid(maker, tanh, memory, sight)
      {
        MoreYesLowersTheMiddle(maker, tanh, memory, sight, more);
      }
    } else {
      WrongLeanRises(maker, tanh);
    }
  }
}
