/** Sizing treats YES and NO alike: replacing the price p by 1 - p and the fair
    value f by 1 - f, and swapping the holdings, mirrors the result. */
module MirrorSymmetry {
  import opened Wrappers
  import opened Reals
  import opened Orders
  import opened Strategy

  function Flip(x: Option<real>): Option<real> { if x.None? then None else Some(1.0 - x.value) }

  function Swap(pair: (int, int)): (int, int) { (pair.1, pair.0) }

  // ------------------------------------------------------------------- decay

  function MirrorFresh(v: FreshFairValue): FreshFairValue {
    v.(raw := 1.0 - v.raw, effective := Flip(v.effective))
  }

  lemma DecayMirrors(raw: real, price: real, age: real, config: Freshness, decay: real -> real)
    requires config.Valid()
    ensures EffectiveFairValue(1.0 - raw, 1.0 - price, age, config, decay)
         == MirrorFresh(EffectiveFairValue(raw, price, age, config, decay))
  {
    var r, m := Clamp01(raw), Clamp01(price);
    var a := Max(0.0, age);
    if config.ttl < a < config.hardExpiry {
      var factor := decay((a - config.ttl) / config.halfLife);
      TimesNegated(r - m, factor);
      assert (1.0 - r) - (1.0 - m) == -(r - m);
      assert Clamp01((1.0 - m) + Times(-(r - m), factor)) == 1.0 - Clamp01(m + Times(r - m, factor));
    }
  }

  // ----------------------------------------------------------------- targets

  /** No condition is needed: at an edge of exactly zero Kelly bets nothing. */
  lemma KellyMirrors(k: Kelly, fairValue: real, price: real, value: real, yes: int, no: int,
                     confidence: Option<real>, factor: real)
    ensures KellyTarget(k, 1.0 - fairValue, 1.0 - price, value, no, yes, confidence, factor)
         == Swap(KellyTarget(k, fairValue, price, value, yes, no, confidence, factor))
  {
    assert 1.0 - (1.0 - price) == price;
    if fairValue == price && !IsResolved(price) {
      ZeroEdgeBetsNothing(k, price, 1.0 - price, value, Shrink(confidence, factor));
      ZeroEdgeBetsNothing(k, 1.0 - price, price, value, Shrink(confidence, factor));
    }
  }

  lemma ZeroEdgeBetsNothing(k: Kelly, own: real, other: real, value: real, shrink: real)
    requires own > 0.0 && other > 0.0
    ensures KellyShares(k, 0.0, own, other, value, shrink) == 0
  {
    assert 0.0 / other == 0.0;
    assert Times(0.0, k.fraction) == 0.0;
    assert Times(0.0, shrink) == 0.0;
    assert Times(0.0, value) == 0.0;
    var bet := Min(0.0, Times(k.maxPositionFrac, value));
    QuotientSign(-bet, own);
    assert (-bet) / own == -(bet / own);
  }

  lemma AdverseMirrors(flat: Flat, entry: real, price: real)
    ensures AdverseYes(flat, 1.0 - entry, 1.0 - price) == AdverseNo(flat, entry, price)
    ensures AdverseNo(flat, 1.0 - entry, 1.0 - price) == AdverseYes(flat, entry, price)
  {
    assert (1.0 - entry) - (1.0 - price) == price - entry;
    assert 1.0 - (1.0 - entry) == entry;
  }

  /** Flat decides a zero edge in favour of NO, which only matters when the
      threshold lets a zero edge through and nothing else decides first. */
  predicate Lopsided(flat: Flat, stored: Option<real>, fairValue: real, price: real, yes: int, no: int) {
    && !IsResolved(price)
    && fairValue == price
    && flat.minEdge <= 0.0
    && !((yes > 0 || no > 0) && MustExit(flat, if stored.Some? then stored.value else price, 0.0, price, yes, no))
    && (FlatShares(flat, price) != 0 || FlatShares(flat, 1.0 - price) != 0)
  }

  /** Flat mirrors exactly when it is not lopsided. */
  lemma FlatMirrors(flat: Flat, stored: Option<real>, fairValue: real, price: real, yes: int, no: int)
    ensures var here := FlatTarget(flat, stored, fairValue, price, yes, no);
            var there := FlatTarget(flat, Flip(stored), 1.0 - fairValue, 1.0 - price, no, yes);
            there == (Swap(here.0), Flip(here.1)) <==> !Lopsided(flat, stored, fairValue, price, yes, no)
  {
    var entry := if stored.Some? then stored.value else price;
    AdverseMirrors(flat, entry, price);
    assert 1.0 - (1.0 - price) == price;
    assert MustExit(flat, 1.0 - entry, price - fairValue, 1.0 - price, no, yes)
        == MustExit(flat, entry, fairValue - price, price, yes, no);
  }

  // ------------------------------------------------------------------ orders

  lemma MirrorSix(a: seq<Order>, b: seq<Order>, c: seq<Order>, d: seq<Order>, e: seq<Order>, f: seq<Order>)
    ensures multiset(MirrorAll(a + b + c + d + e + f))
         == multiset(MirrorAll(b) + MirrorAll(a) + MirrorAll(d) + MirrorAll(c) + MirrorAll(f) + MirrorAll(e))
  {
    MirrorConcat(a + b + c + d + e, f);
    MirrorConcat(a + b + c + d, e);
    MirrorConcat(a + b + c, d);
    MirrorConcat(a + b, c);
    MirrorConcat(a, b);
  }

  lemma MirrorSells(side: Side, market: int, price: real, target: int, current: int)
    ensures MirrorAll(ExitOrders(side, market, price, target, current))
            == ExitOrders(side.Mirror(), market, price, target, current)
    ensures MirrorAll(TrimOrders(side, market, price, target, current))
            == TrimOrders(side.Mirror(), market, price, target, current)
  {
    MirrorSingle(AtPrice(side, market, price, current));
    MirrorSingle(AtPrice(side, market, price, current - target));
  }

  lemma MirrorBuy(side: Side, market: int, price: real, target: int, current: int, cash: real)
    ensures MirrorAll(BuyOrders(side, market, price, target, current, cash))
         == BuyOrders(side.Mirror(), market, price, target, current, cash)
  {
    MirrorSingle(AtPrice(side, market, price, MinInt(target - current, Affordable(cash, price))));
  }

  // The orders for mirrored arguments, written with the original ones.
  lemma MirroredArguments(market: int, ty: int, tn: int, yes: int, no: int, fairValue: real, price: real, cash: real)
    ensures PositionOrders(market, tn, ty, no, yes, 1.0 - fairValue, 1.0 - price, cash)
         == ExitOrders(SellYes, market, 1.0 - price, tn, no)
            + ExitOrders(SellNo, market, price, ty, yes)
            + TrimOrders(SellYes, market, 1.0 - price, tn, no)
            + TrimOrders(SellNo, market, price, ty, yes)
            + BuyOrders(BuyYes, market, 1.0 - fairValue, tn, no, cash)
            + BuyOrders(BuyNo, market, fairValue, ty, yes, cash)
  {
    assert 1.0 - (1.0 - price) == price && 1.0 - (1.0 - fairValue) == fairValue;
  }

  /** The same orders with YES and NO exchanged, counted with repetition. */
  lemma OrdersMirror(market: int, ty: int, tn: int, yes: int, no: int, fairValue: real, price: real, cash: real,
                     market': int, ty': int, tn': int, yes': int, no': int, fairValue': real, price': real, cash': real)
    requires market' == market && ty' == tn && tn' == ty && yes' == no && no' == yes && cash' == cash
    requires fairValue' == 1.0 - fairValue && price' == 1.0 - price
    ensures multiset(PositionOrders(market', ty', tn', yes', no', fairValue', price', cash'))
         == multiset(MirrorAll(PositionOrders(market, ty, tn, yes, no, fairValue, price, cash)))
  {
    MirroredArguments(market, ty, tn, yes, no, fairValue, price, cash);
    MirrorSells(SellYes, market, price, ty, yes);
    MirrorSells(SellNo, market, 1.0 - price, tn, no);
    MirrorBuy(BuyYes, market, fairValue, ty, yes, cash);
    MirrorBuy(BuyNo, market, 1.0 - fairValue, tn, no, cash);
    MirrorParts(
      PositionOrders(market, ty, tn, yes, no, fairValue, price, cash),
      PositionOrders(market', ty', tn', yes', no', fairValue', price', cash'),
      ExitOrders(SellYes, market, price, ty, yes), ExitOrders(SellNo, market, price, ty, yes),
      ExitOrders(SellNo, market, 1.0 - price, tn, no), ExitOrders(SellYes, market, 1.0 - price, tn, no),
      TrimOrders(SellYes, market, price, ty, yes), TrimOrders(SellNo, market, price, ty, yes),
      TrimOrders(SellNo, market, 1.0 - price, tn, no), TrimOrders(SellYes, market, 1.0 - price, tn, no),
      BuyOrders(BuyYes, market, fairValue, ty, yes, cash), BuyOrders(BuyNo, market, fairValue, ty, yes, cash),
      BuyOrders(BuyNo, market, 1.0 - fairValue, tn, no, cash),
      BuyOrders(BuyYes, market, 1.0 - fairValue, tn, no, cash));
  }

  // Two lists whose six parts are mirrors of one another, pairwise swapped.
  lemma MirrorParts(p: seq<Order>, q: seq<Order>,
                    a: seq<Order>, a': seq<Order>, b: seq<Order>, b': seq<Order>, c: seq<Order>, c': seq<Order>,
                    d: seq<Order>, d': seq<Order>, e: seq<Order>, e': seq<Order>, f: seq<Order>, f': seq<Order>)
    requires p == a + b + c + d + e + f && q == b' + a' + d' + c' + f' + e'
    requires a' == MirrorAll(a) && b' == MirrorAll(b) && c' == MirrorAll(c)
    requires d' == MirrorAll(d) && e' == MirrorAll(e) && f' == MirrorAll(f)
    ensures multiset(q) == multiset(MirrorAll(p))
  {
    MirrorSix(a, b, c, d, e, f);
  }

  // ------------------------------------------------------- the whole pipeline

  /** What a market's sizing starts from. */
  datatype Input = Input(
    market: int, raw: real, price: real, age: real, value: real, yes: int, no: int,
    confidence: Option<real>, cash: real, entry: Option<real>)
  {
    function Mirror(): Input {
      this.(raw := 1.0 - raw, price := 1.0 - price, yes := no, no := yes, entry := Flip(entry))
    }
  }

  function Target(sizer: Sizer, i: Input, fairValue: real, factor: real): ((int, int), Option<real>) {
    SizerTarget(sizer, i.entry, fairValue, i.price, i.value, i.yes, i.no, i.confidence, factor)
  }

  function OrdersToward(i: Input, target: (int, int), fairValue: real): seq<Order> {
    PositionOrders(i.market, target.0, target.1, i.yes, i.no, fairValue, i.price, i.cash)
  }

  /** The orders of a market and the entry price remembered afterwards. */
  datatype Sized = Sized(orders: seq<Order>, entry: Option<real>)

  function SizeAt(sizer: Sizer, i: Input, fairValue: real, factor: real): Sized {
    var (target, entry) := Target(sizer, i, fairValue, factor);
    Sized(OrdersToward(i, target, fairValue), entry)
  }

  /** Without a fair value nothing is sized. */
  function SizeDecayed(sizer: Sizer, i: Input, decayed: FreshFairValue): Sized {
    if decayed.effective.None? then Sized([], i.entry) else SizeAt(sizer, i, decayed.effective.value, decayed.factor)
  }

  /** Decay, target and orders for one market. */
  function Size(sizer: Sizer, i: Input, config: Freshness, decay: real -> real): Sized
    requires config.Valid()
  {
    SizeDecayed(sizer, i, EffectiveFairValue(i.raw, i.price, i.age, config, decay))
  }

  // Mirrored arguments are passed separately so that terms match as written.
  lemma OrdersTowardMirror(i: Input, target: (int, int), f: real, j: Input, target': (int, int), g: real)
    requires j == i.Mirror() && target' == Swap(target) && g == 1.0 - f
    ensures multiset(OrdersToward(j, target', g)) == multiset(MirrorAll(OrdersToward(i, target, f)))
  {
    OrdersMirror(i.market, target.0, target.1, i.yes, i.no, f, i.price, i.cash,
                 j.market, target'.0, target'.1, j.yes, j.no, g, j.price, j.cash);
  }

  /** Flat with a fair value at which it is lopsided; Kelly never is. */
  predicate LopsidedAt(sizer: Sizer, i: Input, fairValue: real) {
    sizer.FlatSizer? && Lopsided(sizer.flat, i.entry, fairValue, i.price, i.yes, i.no)
  }

  predicate LopsidedInput(sizer: Sizer, i: Input, config: Freshness, decay: real -> real)
    requires config.Valid()
  {
    var decayed := EffectiveFairValue(i.raw, i.price, i.age, config, decay);
    decayed.effective.Some? && LopsidedAt(sizer, i, decayed.effective.value)
  }

  ghost predicate MirroredResult(here: Sized, there: Sized) {
    multiset(there.orders) == multiset(MirrorAll(here.orders)) && there.entry == Flip(here.entry)
  }

  /** Mirrored inputs give the mirrored orders and the mirrored next entry price. */
  ghost predicate Mirrored(sizer: Sizer, i: Input, config: Freshness, decay: real -> real)
    requires config.Valid()
  {
    MirroredResult(Size(sizer, i, config, decay), Size(sizer, i.Mirror(), config, decay))
  }

  lemma TargetMirrors(sizer: Sizer, i: Input, fairValue: real, factor: real)
    requires !LopsidedAt(sizer, i, fairValue)
    ensures var here := Target(sizer, i, fairValue, factor);
            Target(sizer, i.Mirror(), 1.0 - fairValue, factor) == (Swap(here.0), Flip(here.1))
  {
    match sizer
    case KellySizer(k) => KellyMirrors(k, fairValue, i.price, i.value, i.yes, i.no, i.confidence, factor);
    case FlatSizer(flat) => FlatMirrors(flat, i.entry, fairValue, i.price, i.yes, i.no);
  }

  lemma SizeAtMirrors(sizer: Sizer, i: Input, f: real, factor: real, j: Input, g: real, factor': real)
    requires !LopsidedAt(sizer, i, f)
    requires j == i.Mirror() && g == 1.0 - f && factor' == factor
    ensures MirroredResult(SizeAt(sizer, i, f, factor), SizeAt(sizer, j, g, factor'))
  {
    var (target, entry) := Target(sizer, i, f, factor);
    assert Target(sizer, j, g, factor') == (Swap(target), Flip(entry)) by { TargetMirrors(sizer, i, f, factor); }
    SizedMirrors(i, target, entry, f, j, Swap(target), Flip(entry), g);
  }

  lemma SizedMirrors(i: Input, target: (int, int), entry: Option<real>, f: real,
                     j: Input, target': (int, int), entry': Option<real>, g: real)
    requires j == i.Mirror() && target' == Swap(target) && entry' == Flip(entry) && g == 1.0 - f
    ensures MirroredResult(Sized(OrdersToward(i, target, f), entry), Sized(OrdersToward(j, target', g), entry'))
  {
    OrdersTowardMirror(i, target, f, j, target', g);
  }

  lemma DecayedMirrors(sizer: Sizer, i: Input, decayed: FreshFairValue, j: Input, decayed': FreshFairValue)
    requires j == i.Mirror() && decayed' == MirrorFresh(decayed)
    requires decayed.effective.Some? ==> !LopsidedAt(sizer, i, decayed.effective.value)
    ensures MirroredResult(SizeDecayed(sizer, i, decayed), SizeDecayed(sizer, j, decayed'))
  {
    if decayed.effective.Some? {
      SizeAtMirrors(sizer, i, decayed.effective.value, decayed.factor, j, decayed'.effective.value, decayed'.factor);
    }
  }

  lemma BalancedInputMirrors(sizer: Sizer, i: Input, config: Freshness, decay: real -> real)
    requires config.Valid() && !LopsidedInput(sizer, i, config, decay)
    ensures Mirrored(sizer, i, config, decay)
  {
    DecayMirrors(i.raw, i.price, i.age, config, decay);
    var j := i.Mirror();
    DecayedMirrors(sizer, i, EffectiveFairValue(i.raw, i.price, i.age, config, decay),
                   j, EffectiveFairValue(j.raw, j.price, j.age, config, decay));
  }

  // ----------------------------------------- enough cash shows the target

  /** The one order that moves a side to its target when cash is no limit. */
  function Toward(buy: Side, sell: Side, market: int, price: real, limit: real, target: int,
                  current: int): Option<Order> {
    if target < current then Some(AtPrice(sell, market, price, current - target))
    else if target > current then Some(AtPrice(buy, market, limit, target - current))
    else None
  }

  function Alone(order: Option<Order>): seq<Order> { if order.None? then [] else [order.value] }

  lemma SideIsToward(buy: Side, sell: Side, market: int, price: real, limit: real, target: int, current: int,
                     cash: real)
    requires target >= 0 && Affordable(cash, limit) >= target - current
    ensures ExitOrders(sell, market, price, target, current) + TrimOrders(sell, market, price, target, current)
            + BuyOrders(buy, market, limit, target, current, cash)
         == Alone(Toward(buy, sell, market, price, limit, target, current))
  {
  }

  lemma OrdersAreToward(market: int, ty: int, tn: int, yes: int, no: int, f: real, p: real, cash: real,
                        y: Option<Order>, n: Option<Order>)
    requires ty >= 0 && tn >= 0 && Affordable(cash, f) >= ty - yes && Affordable(cash, 1.0 - f) >= tn - no
    requires y == Toward(BuyYes, SellYes, market, p, f, ty, yes)
    requires n == Toward(BuyNo, SellNo, market, 1.0 - p, 1.0 - f, tn, no)
    ensures multiset(PositionOrders(market, ty, tn, yes, no, f, p, cash)) == multiset(Alone(y)) + multiset(Alone(n))
  {
    var a, b := ExitOrders(SellYes, market, p, ty, yes), ExitOrders(SellNo, market, 1.0 - p, tn, no);
    var c, d := TrimOrders(SellYes, market, p, ty, yes), TrimOrders(SellNo, market, 1.0 - p, tn, no);
    var e, g := BuyOrders(BuyYes, market, f, ty, yes, cash), BuyOrders(BuyNo, market, 1.0 - f, tn, no, cash);
    assert Alone(y) == a + c + e by { SideIsToward(BuyYes, SellYes, market, p, f, ty, yes, cash); }
    assert Alone(n) == b + d + g by { SideIsToward(BuyNo, SellNo, market, 1.0 - p, 1.0 - f, tn, no, cash); }
    Regroup(a + b + c + d + e + g, a, b, c, d, e, g, Alone(y), Alone(n));
  }

  lemma Regroup(p: seq<Order>, a: seq<Order>, b: seq<Order>, c: seq<Order>, d: seq<Order>, e: seq<Order>, f: seq<Order>,
                y: seq<Order>, n: seq<Order>)
    requires p == a + b + c + d + e + f && y == a + c + e && n == b + d + f
    ensures multiset(p) == multiset(y) + multiset(n)
  {
  }

  predicate OnYes(order: Option<Order>) { order.Some? ==> order.value.side.BuyYes? || order.value.side.SellYes? }

  predicate OnNo(order: Option<Order>) { order.Some? ==> order.value.side.BuyNo? || order.value.side.SellNo? }

  // One order a side: the orders of both sides together tell each of them.
  lemma PairShows(y: Option<Order>, n: Option<Order>, y': Option<Order>, n': Option<Order>)
    requires OnYes(y) && OnYes(y') && OnNo(n) && OnNo(n')
    requires multiset(Alone(y)) + multiset(Alone(n)) == multiset(Alone(y')) + multiset(Alone(n'))
    ensures y == y' && n == n'
  {
    var all := multiset(Alone(y)) + multiset(Alone(n));
    assert y.Some? ==> y.value in all;
    assert n.Some? ==> n.value in all;
    assert |all| == |Alone(y)| + |Alone(n)| == |Alone(y')| + |Alone(n')|;
    assert y'.Some? ==> y'.value in all;
    assert n'.Some? ==> n'.value in all;
  }

  lemma TargetsShow(market: int, ty: int, tn: int, ty': int, tn': int, yes: int, no: int, f: real, p: real, cash: real)
    requires ty >= 0 && tn >= 0 && ty' >= 0 && tn' >= 0
    requires Affordable(cash, f) >= MaxInt(ty, ty') - yes && Affordable(cash, 1.0 - f) >= MaxInt(tn, tn') - no
    requires multiset(PositionOrders(market, ty, tn, yes, no, f, p, cash))
          == multiset(PositionOrders(market, ty', tn', yes, no, f, p, cash))
    ensures ty == ty' && tn == tn'
  {
    var y, y' := Toward(BuyYes, SellYes, market, p, f, ty, yes), Toward(BuyYes, SellYes, market, p, f, ty', yes);
    var n := Toward(BuyNo, SellNo, market, 1.0 - p, 1.0 - f, tn, no);
    var n' := Toward(BuyNo, SellNo, market, 1.0 - p, 1.0 - f, tn', no);
    OrdersAreToward(market, ty, tn, yes, no, f, p, cash, y, n);
    OrdersAreToward(market, ty', tn', yes, no, f, p, cash, y', n');
    PairShows(y, n, y', n');
  }

  lemma AmpleAffords(n: nat, limit: real)
    requires 0.0 < limit <= 1.0
    ensures Affordable(n as real, limit) >= n
  {
    MulLe(limit, 1.0, n as real);
    CostQuotient(n as real, n as real, limit);
  }

  /** Enough cash for any move between the holdings and the two opening sizes. */
  function AmpleCash(flat: Flat, i: Input): nat
    requires 0.0 < i.price < 1.0
  {
    FlatShares(flat, i.price) + FlatShares(flat, 1.0 - i.price) + MaxInt(0, -i.yes) + MaxInt(0, -i.no)
  }

  lemma LopsidedTargets(flat: Flat, stored: Option<real>, f: real, p: real, yes: int, no: int, g: real, q: real)
    requires Lopsided(flat, stored, f, p, yes, no) && g == 1.0 - f && q == 1.0 - p
    ensures FlatTarget(flat, stored, f, p, yes, no).0 == (0, FlatShares(flat, q))
    ensures FlatTarget(flat, Flip(stored), g, q, no, yes).0 == (0, FlatShares(flat, p))
  {
    assert 1.0 - q == p;
    AdverseMirrors(flat, if stored.Some? then stored.value else p, p);
  }

  lemma OrdersDiffer(j: Input, a: nat, b: nat, g: real)
    requires a != 0 || b != 0
    requires Affordable(j.cash, g) >= a + MaxInt(0, -j.yes) && Affordable(j.cash, 1.0 - g) >= b + MaxInt(0, -j.no)
    ensures multiset(OrdersToward(j, (0, b), g)) != multiset(OrdersToward(j, (a, 0), g))
  {
    if multiset(OrdersToward(j, (0, b), g)) == multiset(OrdersToward(j, (a, 0), g)) {
      TargetsShow(j.market, 0, b, a, 0, j.yes, j.no, g, j.price, j.cash);
    }
  }

  lemma LopsidedOrdersDiffer(i: Input, a: nat, b: nat, f: real, j: Input, g: real, ample: nat)
    requires a != 0 || b != 0
    requires j == i.Mirror() && g == 1.0 - f && 0.0 < f < 1.0
    requires i.cash == ample as real && ample >= a + b + MaxInt(0, -i.yes) + MaxInt(0, -i.no)
    ensures multiset(OrdersToward(j, (0, b), g)) != multiset(MirrorAll(OrdersToward(i, (0, a), f)))
  {
    OrdersTowardMirror(i, (0, a), f, j, (a, 0), g);
    AmpleAffords(ample, g);
    AmpleAffords(ample, 1.0 - g);
    OrdersDiffer(j, a, b, g);
  }

  lemma LopsidedSizesDiffer(flat: Flat, i: Input, f: real, factor: real, j: Input, g: real, factor': real)
    requires Lopsided(flat, i.entry, f, i.price, i.yes, i.no) && i.cash == AmpleCash(flat, i) as real
    requires j == i.Mirror() && g == 1.0 - f && factor' == factor
    ensures !MirroredResult(SizeAt(FlatSizer(flat), i, f, factor), SizeAt(FlatSizer(flat), j, g, factor'))
  {
    LopsidedTargets(flat, i.entry, f, i.price, i.yes, i.no, g, j.price);
    LopsidedOrdersDiffer(i, FlatShares(flat, 1.0 - i.price), FlatShares(flat, i.price), f, j, g, AmpleCash(flat, i));
  }

  lemma LopsidedInputDiffers(sizer: Sizer, i: Input, config: Freshness, decay: real -> real)
    requires config.Valid() && LopsidedInput(sizer, i, config, decay)
    requires i.cash == AmpleCash(sizer.flat, i) as real
    ensures !Mirrored(sizer, i, config, decay)
  {
    DecayMirrors(i.raw, i.price, i.age, config, decay);
    var j := i.Mirror();
    var decayed := EffectiveFairValue(i.raw, i.price, i.age, config, decay);
    var decayed' := EffectiveFairValue(j.raw, j.price, j.age, config, decay);
    LopsidedSizesDiffer(sizer.flat, i, decayed.effective.value, decayed.factor, j, decayed'.effective.value,
                        decayed'.factor);
  }

  // ----------------------------------------------------------- the main result

  /** Whatever the cash, mirrored inputs give mirrored orders and entry prices,
      exactly when the input is not lopsided at its decayed fair value. */
  lemma SizingMirrors(sizer: Sizer, i: Input, config: Freshness, decay: real -> real)
    requires config.Valid()
    ensures (forall c :: Mirrored(sizer, i.(cash := c), config, decay)) <==> !LopsidedInput(sizer, i, config, decay)
  {
    if LopsidedInput(sizer, i, config, decay) {
      var c := AmpleCash(sizer.flat, i) as real;
      LopsidedInputDiffers(sizer, i.(cash := c), config, decay);
    } else {
      forall c
        ensures Mirrored(sizer, i.(cash := c), config, decay)
      {
        BalancedInputMirrors(sizer, i.(cash := c), config, decay);
      }
    }
  }

  /** A threshold of zero and a fair value equal to the price: both the input and
      its mirror buy NO. */
  lemma ZeroEdgeBuysNoTwice(market: int, config: Freshness, decay: real -> real)
    requires config.Valid() && config.hardExpiry > 0.0
    ensures var i := Input(market, 0.4, 0.4, 0.0, 100.0, 0, 0, None, 100.0, None);
            var flat := FlatSizer(Flat(20.0, 0.0, 0.30));
            && LopsidedInput(flat, i, config, decay)
            && Size(flat, i, config, decay).orders == [AtPrice(BuyNo, market, 0.6, 33)]
            && Size(flat, i.Mirror(), config, decay).orders == [AtPrice(BuyNo, market, 0.4, 50)]
  {
    assert FlatShares(Flat(20.0, 0.0, 0.30), 0.6) == 33 && FlatShares(Flat(20.0, 0.0, 0.30), 0.4) == 50;
    assert Affordable(100.0, 0.6) >= 50 && Affordable(100.0, 0.4) >= 50;
  }
}
