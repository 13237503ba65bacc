/**
  The order normalizer and book aggregator of the trade widget
  (trade/src/util/ui_orders.ts): signed 0x orders become UI orders with a
  side, size, fill and unit price, and UI orders are grouped into depth
  levels keyed by their rounded price.
 */
module UiOrders {
  import opened Common

  datatype OrderSide = Buy | Sell

  datatype Token = Token(address: string, symbol: string, decimals: nat)

  /** The parts of a signed 0x order the normalizer reads. */
  datatype SignedOrder = SignedOrder(
    makerAssetData: string,
    takerAssetData: string,
    makerAssetAmount: nat,
    takerAssetAmount: nat)

  /** The 0x exchange's order status, passed through unchanged. */
  datatype OrderStatus =
    | Invalid | InvalidMakerAssetAmount | InvalidTakerAssetAmount
    | Fillable | Expired | FullyFilled | Cancelled

  /** On-chain information about one order, aligned by position with the order list. */
  datatype OrderInfo = OrderInfo(orderStatus: OrderStatus, orderTakerAssetFilledAmount: nat)

  datatype UIOrder = UIOrder(
    rawOrder: SignedOrder,
    side: OrderSide,
    size: real,
    filled: Option<real>,
    price: real,
    status: Option<OrderStatus>)

  datatype OrderBookItem = OrderBookItem(side: OrderSide, price: real, size: real)

  /** The assertion error thrown when the order-info list is not aligned with the orders. */
  datatype NormalizeError = OrdersInfoLengthMismatch(ordersInfoLength: nat, ordersLength: nat)

  /** Encoders of the 0x asset-data format, which this model does not look inside. */
  datatype AssetCodec = AssetCodec(encode: string -> string, decodeAddress: string -> string)

  /** Both amounts are non-zero, so neither price ratio divides by zero. */
  predicate Priceable(o: SignedOrder)
  {
    o.makerAssetAmount > 0 && o.takerAssetAmount > 0
  }

  predicate AllPriceable(orders: seq<SignedOrder>)
  {
    forall i :: 0 <= i < |orders| ==> Priceable(orders[i])
  }

  /** An order that takes the base token buys it from the maker's point of view. */
  function SideOf(order: SignedOrder, baseEncoded: string): OrderSide
  {
    if order.takerAssetData == baseEncoded then Buy else Sell
  }

  /** The size of an order is always counted in the asset it offers for sale (Sell) or asks for (Buy). */
  function SizeOf(order: SignedOrder, side: OrderSide): real
  {
    if side == Sell then order.makerAssetAmount as real else order.takerAssetAmount as real
  }

  /** Quote per base: taker over maker for a Sell order, maker over taker for a Buy order. */
  function RatioPrice(side: OrderSide, makerAmount: real, takerAmount: real): real
    requires makerAmount > 0.0 && takerAmount > 0.0
  {
    if side == Sell then takerAmount / makerAmount else makerAmount / takerAmount
  }

  /**
    What the normalizer without on-chain information promises of one UI order:
    the raw order is kept, there is no fill and no status, the side says whether
    the taker asset is the base token, and the size and the unit price are read
    from the amounts of that side.
   */
  predicate NormalizedWithoutInfo(u: UIOrder, order: SignedOrder, baseEncoded: string)
  {
    && u.rawOrder == order && u.filled.None? && u.status.None?
    && (u.side == Buy <==> order.takerAssetData == baseEncoded)
    && (u.side == Sell ==>
          u.size == order.makerAssetAmount as real &&
          u.price * order.makerAssetAmount as real == order.takerAssetAmount as real)
    && (u.side == Buy ==>
          u.size == order.takerAssetAmount as real &&
          u.price * order.takerAssetAmount as real == order.makerAssetAmount as real)
  }

  /** One order on the path without on-chain information. */
  function WithoutInfoOrder(order: SignedOrder, baseEncoded: string): (u: UIOrder)
    requires Priceable(order)
    ensures NormalizedWithoutInfo(u, order, baseEncoded)
  {
    var side := SideOf(order, baseEncoded);
    UIOrder(order, side, SizeOf(order, side), None,
            RatioPrice(side, order.makerAssetAmount as real, order.takerAssetAmount as real), None)
  }

  function OrdersToUIOrdersWithoutOrderInfo(orders: seq<SignedOrder>, baseToken: Token, codec: AssetCodec)
    : (r: seq<UIOrder>)
    requires AllPriceable(orders)
    ensures |r| == |orders|
    ensures forall i :: 0 <= i < |orders| ==> NormalizedWithoutInfo(r[i], orders[i], codec.encode(baseToken.address))
    ensures forall i :: 0 <= i < |orders| ==> r[i] == WithoutInfoOrder(orders[i], codec.encode(baseToken.address))
  {
    var baseEncoded := codec.encode(baseToken.address);
    seq(|orders|, i requires 0 <= i < |orders| => WithoutInfoOrder(orders[i], baseEncoded))
  }

  /** The maker asset is the base token, comparing addresses without regard to case. */
  predicate MakerIsBase(order: SignedOrder, baseToken: Token, codec: AssetCodec)
  {
    SameIgnoringCase(codec.decodeAddress(order.makerAssetData), baseToken.address)
  }

  /** Decimal counts of the maker and of the taker asset: the base token's for the side that is base, the quote token's for the other. */
  function MakerDecimals(order: SignedOrder, baseToken: Token, quoteToken: Token, codec: AssetCodec): nat
  {
    if MakerIsBase(order, baseToken, codec) then baseToken.decimals else quoteToken.decimals
  }

  function TakerDecimals(order: SignedOrder, baseToken: Token, quoteToken: Token, codec: AssetCodec): nat
  {
    if MakerIsBase(order, baseToken, codec) then quoteToken.decimals else baseToken.decimals
  }

  /**
    What the normalizer with on-chain information promises of one UI order
    apart from its price: the raw order and the status are kept, the side
    says whether the taker asset is the base token, the size is read from the
    amount of that side, and the fill of a Sell order is the on-chain taker
    fill carried over to the maker amount in proportion.
   */
  predicate NormalizedWithInfo(u: UIOrder, order: SignedOrder, info: OrderInfo, baseEncoded: string)
  {
    && u.rawOrder == order && u.status == Some(info.orderStatus)
    && (u.side == Buy <==> order.takerAssetData == baseEncoded)
    && (u.side == Sell ==> u.size == order.makerAssetAmount as real)
    && (u.side == Buy ==> u.size == order.takerAssetAmount as real)
    && (u.side == Buy ==> u.filled == Some(info.orderTakerAssetFilledAmount as real))
    && (u.side == Sell ==>
          u.filled.Some? &&
          u.filled.value * order.takerAssetAmount as real
            == info.orderTakerAssetFilledAmount as real * order.makerAssetAmount as real)
  }

  /** One order on the path with on-chain information. */
  function WithInfoOrder(order: SignedOrder, info: OrderInfo, baseToken: Token, quoteToken: Token, codec: AssetCodec)
    : (u: UIOrder)
    requires Priceable(order)
    ensures NormalizedWithInfo(u, order, info, codec.encode(baseToken.address))
  {
    var side := SideOf(order, codec.encode(baseToken.address));
    var makerUnits := ToUnits(order.makerAssetAmount as real, MakerDecimals(order, baseToken, quoteToken, codec));
    var takerUnits := ToUnits(order.takerAssetAmount as real, TakerDecimals(order, baseToken, quoteToken, codec));
    var filled :=
      if side == Sell
      then info.orderTakerAssetFilledAmount as real / order.takerAssetAmount as real * order.makerAssetAmount as real
      else info.orderTakerAssetFilledAmount as real;
    UIOrder(order, side, SizeOf(order, side), Some(filled), RatioPrice(side, makerUnits, takerUnits),
            Some(info.orderStatus))
  }

  function OrdersToUIOrdersWithOrdersInfo(
    orders: seq<SignedOrder>, ordersInfo: seq<OrderInfo>, baseToken: Token, quoteToken: Token, codec: AssetCodec)
    : (r: Result<seq<UIOrder>, NormalizeError>)
    requires AllPriceable(orders)
    ensures r.Err? <==> |ordersInfo| != |orders|
    ensures r.Err? ==> r.error == OrdersInfoLengthMismatch(|ordersInfo|, |orders|)
    ensures r.Ok? ==> |r.value| == |orders|
    ensures r.Ok? ==> forall i :: 0 <= i < |orders| ==>
              NormalizedWithInfo(r.value[i], orders[i], ordersInfo[i], codec.encode(baseToken.address))
    ensures r.Ok? ==> forall i :: 0 <= i < |orders| ==>
              r.value[i] == WithInfoOrder(orders[i], ordersInfo[i], baseToken, quoteToken, codec)
  {
    if |ordersInfo| != |orders| then Err(OrdersInfoLengthMismatch(|ordersInfo|, |orders|))
    else Ok(seq(|orders|, i requires 0 <= i < |orders| =>
                WithInfoOrder(orders[i], ordersInfo[i], baseToken, quoteToken, codec)))
  }

  /** The entry point: the on-chain path is taken exactly when both the order info and the quote token are supplied. */
  function OrdersToUIOrders(
    orders: seq<SignedOrder>, baseToken: Token, ordersInfo: Option<seq<OrderInfo>>, quoteToken: Option<Token>,
    codec: AssetCodec)
    : (r: Result<seq<UIOrder>, NormalizeError>)
    requires AllPriceable(orders)
    ensures ordersInfo.Some? && quoteToken.Some? ==>
              r == OrdersToUIOrdersWithOrdersInfo(orders, ordersInfo.value, baseToken, quoteToken.value, codec)
    ensures !(ordersInfo.Some? && quoteToken.Some?) ==>
              r == Ok(OrdersToUIOrdersWithoutOrderInfo(orders, baseToken, codec))
  {
    if ordersInfo.Some? && quoteToken.Some? then
      OrdersToUIOrdersWithOrdersInfo(orders, ordersInfo.value, baseToken, quoteToken.value, codec)
    else
      Ok(OrdersToUIOrdersWithoutOrderInfo(orders, baseToken, codec))
  }

  /** A Sell price and the Buy price of the same amounts are reciprocals. */
  lemma SellBuyPricesReciprocal(makerAmount: real, takerAmount: real)
    requires makerAmount > 0.0 && takerAmount > 0.0
    ensures RatioPrice(Sell, makerAmount, takerAmount) * RatioPrice(Buy, makerAmount, takerAmount) == 1.0
  {
    var x := takerAmount / makerAmount;
    var y := makerAmount / takerAmount;
    calc {
      (x * y) * takerAmount;
      x * (y * takerAmount);
      { assert y * takerAmount == makerAmount; }
      x * makerAmount;
      { assert x * makerAmount == takerAmount; }
      takerAmount;
    }
    MulCancel(x * y, 1.0, takerAmount);
  }

  /** The same trade seen from the other party: maker and taker exchanged. */
  function Mirror(order: SignedOrder): SignedOrder
  {
    SignedOrder(order.takerAssetData, order.makerAssetData, order.takerAssetAmount, order.makerAssetAmount)
  }

  /**
    An order selling the base token and the mirrored order buying it get the
    same size and the same price: price is always quote per base.
   */
  lemma MirrorKeepsPriceAndSize(order: SignedOrder, baseEncoded: string)
    requires Priceable(order)
    requires order.makerAssetData == baseEncoded && order.takerAssetData != baseEncoded
    ensures WithoutInfoOrder(order, baseEncoded).side == Sell
    ensures WithoutInfoOrder(Mirror(order), baseEncoded).side == Buy
    ensures WithoutInfoOrder(Mirror(order), baseEncoded).size == WithoutInfoOrder(order, baseEncoded).size
    ensures WithoutInfoOrder(Mirror(order), baseEncoded).price == WithoutInfoOrder(order, baseEncoded).price
  {
  }

  /** Both paths agree on the raw order, the side and the size. */
  lemma PathsAgreeOnSideAndSize(order: SignedOrder, info: OrderInfo, baseToken: Token, quoteToken: Token, codec: AssetCodec)
    requires Priceable(order)
    ensures var a := WithoutInfoOrder(order, codec.encode(baseToken.address));
            var b := WithInfoOrder(order, info, baseToken, quoteToken, codec);
            a.rawOrder == b.rawOrder && a.side == b.side && a.size == b.size
  {
  }

  lemma ScaledRatio(x: real, y: real, px: real, py: real)
    requires x > 0.0 && y > 0.0 && px > 0.0 && py > 0.0
    ensures (x / px) / (y / py) == (x / y) * (py / px)
  {
    var a := x / px;
    var b := y / py;
    var l := a / b;
    var q := x / y;
    var s := py / px;
    calc {
      l * (y * px);
      { assert y == b * py; }
      l * (b * py * px);
      (l * b) * (py * px);
      { assert l * b == a; }
      a * (py * px);
      (a * px) * py;
      { assert a * px == x; }
      x * py;
    }
    calc {
      (q * s) * (y * px);
      (q * y) * (s * px);
      { assert q * y == x; assert s * px == py; }
      x * py;
    }
    MulCancel(l, q * s, y * px);
  }

  lemma RescaledRatioPrice(side: OrderSide, m: real, t: real, dm: nat, dt: nat)
    requires m > 0.0 && t > 0.0
    ensures side == Sell ==>
              RatioPrice(side, ToUnits(m, dm), ToUnits(t, dt)) == RatioPrice(side, m, t) * (Pow10(dm) / Pow10(dt))
    ensures side == Buy ==>
              RatioPrice(side, ToUnits(m, dm), ToUnits(t, dt)) == RatioPrice(side, m, t) * (Pow10(dt) / Pow10(dm))
  {
    if side == Sell {
      ScaledRatio(t, m, Pow10(dt), Pow10(dm));
    } else {
      ScaledRatio(m, t, Pow10(dm), Pow10(dt));
    }
  }

  /**
    The price on the on-chain path is the raw ratio rescaled by the two
    decimal counts; with equal decimal counts both paths give the same price.
   */
  lemma WithInfoPriceRescales(order: SignedOrder, info: OrderInfo, baseToken: Token, quoteToken: Token, codec: AssetCodec)
    requires Priceable(order)
    ensures var raw := WithoutInfoOrder(order, codec.encode(baseToken.address));
            var scaled := WithInfoOrder(order, info, baseToken, quoteToken, codec);
            var pm := Pow10(MakerDecimals(order, baseToken, quoteToken, codec));
            var pt := Pow10(TakerDecimals(order, baseToken, quoteToken, codec));
            (raw.side == Sell ==> scaled.price == raw.price * (pm / pt)) &&
            (raw.side == Buy ==> scaled.price == raw.price * (pt / pm))
  {
    RescaledRatioPrice(
      SideOf(order, codec.encode(baseToken.address)), order.makerAssetAmount as real, order.takerAssetAmount as real,
      MakerDecimals(order, baseToken, quoteToken, codec), TakerDecimals(order, baseToken, quoteToken, codec));
  }

  /**
    A raw UI order and its on-chain counterpart agree on the raw order, the
    side and the size, and the on-chain price is the raw price times the
    maker scale over the taker scale for a Sell order, the inverse for a Buy order.
   */
  predicate PathsAgree(raw: UIOrder, onChain: UIOrder, makerScale: real, takerScale: real)
    requires makerScale > 0.0 && takerScale > 0.0
  {
    && raw.rawOrder == onChain.rawOrder && raw.side == onChain.side && raw.size == onChain.size
    && (raw.side == Sell ==> onChain.price == raw.price * (makerScale / takerScale))
    && (raw.side == Buy ==> onChain.price == raw.price * (takerScale / makerScale))
  }

  /** `PathsAgree` for one order, combining the two lemmas above. */
  lemma OrderPathsAgree(order: SignedOrder, info: OrderInfo, baseToken: Token, quoteToken: Token, codec: AssetCodec)
    requires Priceable(order)
    ensures PathsAgree(
              WithoutInfoOrder(order, codec.encode(baseToken.address)),
              WithInfoOrder(order, info, baseToken, quoteToken, codec),
              Pow10(MakerDecimals(order, baseToken, quoteToken, codec)),
              Pow10(TakerDecimals(order, baseToken, quoteToken, codec)))
  {
    PathsAgreeOnSideAndSize(order, info, baseToken, quoteToken, codec);
    WithInfoPriceRescales(order, info, baseToken, quoteToken, codec);
  }

  /**
    The two normalizers, over the same aligned order list, agree order by
    order in the sense of `PathsAgree`, with the scales given by the maker
    and taker decimal counts.
   */
  lemma NormalizedListsAgree(
    orders: seq<SignedOrder>, ordersInfo: seq<OrderInfo>, baseToken: Token, quoteToken: Token, codec: AssetCodec)
    requires AllPriceable(orders)
    requires |ordersInfo| == |orders|
    ensures var raw := OrdersToUIOrdersWithoutOrderInfo(orders, baseToken, codec);
            var onChain := OrdersToUIOrdersWithOrdersInfo(orders, ordersInfo, baseToken, quoteToken, codec);
            onChain.Ok? && |onChain.value| == |raw| &&
            forall i :: 0 <= i < |raw| ==>
              PathsAgree(raw[i], onChain.value[i],
                         Pow10(MakerDecimals(orders[i], baseToken, quoteToken, codec)),
                         Pow10(TakerDecimals(orders[i], baseToken, quoteToken, codec)))
  {
    var raw := OrdersToUIOrdersWithoutOrderInfo(orders, baseToken, codec);
    var onChain := OrdersToUIOrdersWithOrdersInfo(orders, ordersInfo, baseToken, quoteToken, codec);
    forall i | 0 <= i < |raw|
      ensures PathsAgree(raw[i], onChain.value[i],
                         Pow10(MakerDecimals(orders[i], baseToken, quoteToken, codec)),
                         Pow10(TakerDecimals(orders[i], baseToken, quoteToken, codec)))
    {
      OrderPathsAgree(orders[i], ordersInfo[i], baseToken, quoteToken, codec);
    }
  }

  lemma FillFraction(z: real, f: real, t: real, m: real)
    requires f >= 0.0 && t > 0.0 && m > 0.0
    requires z * t == f * m
    ensures z / m == f / t
    ensures z <= m <==> f <= t
  {
    var q := f / t;
    calc {
      (z / m) * (t * m);
      ((z / m) * m) * t;
      { assert (z / m) * m == z; }
      z * t;
      f * m;
      { assert q * t == f; }
      q * (t * m);
    }
    MulCancel(z / m, q, t * m);
    if z <= m {
      assert z * t <= m * t;
    } else {
      assert z * t > m * t;
    }
  }

  /**
    The fill of a Sell order is the fraction of the taker amount already
    filled, applied to the maker-side size; it stays within the size exactly
    when the on-chain fill stays within the taker amount.
   */
  lemma SellFillIsProportional(order: SignedOrder, info: OrderInfo, baseToken: Token, quoteToken: Token, codec: AssetCodec)
    requires Priceable(order)
    requires order.takerAssetData != codec.encode(baseToken.address)
    ensures var u := WithInfoOrder(order, info, baseToken, quoteToken, codec);
            u.filled.Some? &&
            u.filled.value / u.size == info.orderTakerAssetFilledAmount as real / order.takerAssetAmount as real &&
            (u.filled.value <= u.size <==> info.orderTakerAssetFilledAmount <= order.takerAssetAmount)
  {
    var u := WithInfoOrder(order, info, baseToken, quoteToken, codec);
    FillFraction(u.filled.value, info.orderTakerAssetFilledAmount as real, order.takerAssetAmount as real,
                 order.makerAssetAmount as real);
  }

  // ---------------------------------------------------------------------------
  // Book aggregation

  /** The grouping predicate: an order belongs to the level of rounded-price key `k`. */
  function KeyIs(key: real -> string, k: string): UIOrder -> bool
  {
    (o: UIOrder) => key(o.price) == k
  }

  /** The distinct rounded-price keys, in the order in which they first occur. */
  function PriceKeys(orders: seq<UIOrder>, key: real -> string): (ks: seq<string>)
    ensures forall i, j :: 0 <= i < j < |ks| ==> ks[i] != ks[j]
    ensures forall i :: 0 <= i < |ks| ==> exists j :: 0 <= j < |orders| && key(orders[j].price) == ks[i]
    ensures forall j :: 0 <= j < |orders| ==> key(orders[j].price) in ks
  {
    if orders == [] then []
    else
      var init := orders[..|orders| - 1];
      var ks := PriceKeys(init, key);
      var k := key(orders[|orders| - 1].price);
      assert forall j :: 0 <= j < |init| ==> orders[j] == init[j];
      if k in ks then ks else ks + [k]
  }

  /** The orders of one price level, in input order. */
  function Group(orders: seq<UIOrder>, key: real -> string, k: string): seq<UIOrder>
  {
    Filter(orders, KeyIs(key, k))
  }

  /** Sum of sizes, accumulated left to right as `reduce` does. */
  function SumSizes(orders: seq<UIOrder>): real
  {
    if orders == [] then 0.0 else SumSizes(orders[..|orders| - 1]) + orders[|orders| - 1].size
  }

  /** A non-null fill counts (a BigNumber is truthy even when zero); a null fill counts as nothing. */
  function FilledOrZero(o: UIOrder): real
  {
    if o.filled.Some? then o.filled.value else 0.0
  }

  /**
    The reduce without an initial value: everything but the size comes from
    the first order of the level, the sizes are summed, and only that first
    order's fill is netted out.
   */
  function MergeGroup(g: seq<UIOrder>): (item: OrderBookItem)
    requires g != []
    ensures item.side == g[0].side && item.price == g[0].price
    ensures item.size + FilledOrZero(g[0]) == SumSizes(g)
  {
    var first := g[0];
    var total := SumSizes(g);
    OrderBookItem(first.side, first.price, if first.filled.Some? then total - first.filled.value else total)
  }

  lemma {:induction false} FilterHeadIsFirst<T>(s: seq<T>, p: T -> bool)
    requires Filter(s, p) != []
    ensures FindFirst(s, p).Some? && Filter(s, p)[0] == s[FindFirst(s, p).value]
    decreases |s|
  {
    if p(s[0]) {
      assert Filter(s, p) == [s[0]] + Filter(s[1..], p);
      assert FindFirst(s, p) == Some(0);
    } else {
      assert Filter(s, p) == Filter(s[1..], p);
      FilterHeadIsFirst(s[1..], p);
      var k := FindFirst(s[1..], p).value;
      assert FindFirst(s, p) == Some(k + 1);
      assert s[1..][k] == s[k + 1];
    }
  }

  /** Every key the book lists has a non-empty level whose head is the first order with that key. */
  lemma KeysHaveGroups(orders: seq<UIOrder>, key: real -> string)
    ensures var ks := PriceKeys(orders, key);
            forall i :: 0 <= i < |ks| ==>
              && Group(orders, key, ks[i]) != []
              && FindFirst(orders, KeyIs(key, ks[i])).Some?
              && Group(orders, key, ks[i])[0] == orders[FindFirst(orders, KeyIs(key, ks[i])).value]
              && key(Group(orders, key, ks[i])[0].price) == ks[i]
  {
    var ks := PriceKeys(orders, key);
    forall i | 0 <= i < |ks|
      ensures Group(orders, key, ks[i]) != []
      ensures FindFirst(orders, KeyIs(key, ks[i])).Some?
      ensures Group(orders, key, ks[i])[0] == orders[FindFirst(orders, KeyIs(key, ks[i])).value]
      ensures key(Group(orders, key, ks[i])[0].price) == ks[i]
    {
      var k := ks[i];
      var j :| 0 <= j < |orders| && key(orders[j].price) == k;
      assert KeyIs(key, k)(orders[j]);
      assert orders[j] in Group(orders, key, k);
      FilterHeadIsFirst(orders, KeyIs(key, k));
      assert KeyIs(key, k)(Group(orders, key, k)[0]);
    }
  }

  /** One depth level per key of `ks`, in the order of `ks`. */
  function MergeKeys(orders: seq<UIOrder>, key: real -> string, ks: seq<string>): (items: seq<OrderBookItem>)
    requires forall i :: 0 <= i < |ks| ==> Group(orders, key, ks[i]) != []
    ensures |items| == |ks|
    ensures forall i :: 0 <= i < |ks| ==> items[i] == MergeGroup(Group(orders, key, ks[i]))
  {
    if ks == [] then []
    else MergeKeys(orders, key, ks[..|ks| - 1]) + [MergeGroup(Group(orders, key, ks[|ks| - 1]))]
  }

  lemma MergeKeysKeys(orders: seq<UIOrder>, key: real -> string)
    ensures var ks := PriceKeys(orders, key);
            (forall i :: 0 <= i < |ks| ==> Group(orders, key, ks[i]) != []) &&
            var items := MergeKeys(orders, key, ks);
            forall i :: 0 <= i < |items| ==> key(items[i].price) == ks[i]
  {
    KeysHaveGroups(orders, key);
    var ks := PriceKeys(orders, key);
    var items := MergeKeys(orders, key, ks);
    forall i | 0 <= i < |items|
      ensures key(items[i].price) == ks[i]
    {
      var g := Group(orders, key, ks[i]);
      assert items[i] == MergeGroup(g);
      assert items[i].price == g[0].price;
    }
  }

  lemma MergeKeysCover(orders: seq<UIOrder>, key: real -> string)
    ensures var ks := PriceKeys(orders, key);
            (forall i :: 0 <= i < |ks| ==> Group(orders, key, ks[i]) != []) &&
            var items := MergeKeys(orders, key, ks);
            (forall i, j :: 0 <= i < j < |items| ==> key(items[i].price) != key(items[j].price))
            && forall j :: 0 <= j < |orders| ==>
                 exists i :: 0 <= i < |items| && key(items[i].price) == key(orders[j].price)
  {
    MergeKeysKeys(orders, key);
    var ks := PriceKeys(orders, key);
    var items := MergeKeys(orders, key, ks);
    forall j | 0 <= j < |orders|
      ensures exists i :: 0 <= i < |items| && key(items[i].price) == key(orders[j].price)
    {
      var i :| 0 <= i < |ks| && ks[i] == key(orders[j].price);
      assert key(items[i].price) == ks[i];
    }
  }

  /**
    The depth of the book: exactly one level per distinct rounded-price key,
    whatever the sides of its orders.
   */
  function MergeByPrice(orders: seq<UIOrder>, key: real -> string): (items: seq<OrderBookItem>)
    ensures |items| == |PriceKeys(orders, key)|
    ensures forall i, j :: 0 <= i < j < |items| ==> key(items[i].price) != key(items[j].price)
    ensures forall j :: 0 <= j < |orders| ==>
              exists i :: 0 <= i < |items| && key(items[i].price) == key(orders[j].price)
  {
    MergeKeysKeys(orders, key);
    MergeKeysCover(orders, key);
    MergeKeys(orders, key, PriceKeys(orders, key))
  }

  /**
    A level agrees with the first order carrying its key: same side, same
    price, and its size plus that order's fill is the level's total size.
   */
  predicate LevelFromFirstOrder(orders: seq<UIOrder>, key: real -> string, item: OrderBookItem)
  {
    var first := FindFirst(orders, KeyIs(key, key(item.price)));
    && first.Some?
    && item.side == orders[first.value].side
    && item.price == orders[first.value].price
    && item.size + FilledOrZero(orders[first.value]) == SumSizes(Group(orders, key, key(item.price)))
  }

  lemma MergeLevelAt(orders: seq<UIOrder>, key: real -> string, i: int)
    requires 0 <= i < |MergeByPrice(orders, key)|
    ensures LevelFromFirstOrder(orders, key, MergeByPrice(orders, key)[i])
  {
    var ks := PriceKeys(orders, key);
    KeysHaveGroups(orders, key);
    var k := ks[i];
    var g := Group(orders, key, k);
    assert g != [] && key(g[0].price) == k;
    var item := MergeGroup(g);
    assert MergeByPrice(orders, key)[i] == item;
    assert item.price == g[0].price && item.side == g[0].side;
    assert item.size + FilledOrZero(g[0]) == SumSizes(g);
    assert key(item.price) == k;
    FilterHeadIsFirst(orders, KeyIs(key, k));
    var first := FindFirst(orders, KeyIs(key, k));
    assert first.Some? && g[0] == orders[first.value];
    assert FindFirst(orders, KeyIs(key, key(item.price))) == first;
  }

  /** Each level takes its side and price from the first order with its key, and nets out that order's fill. */
  lemma MergeLevelsFromFirstOrder(orders: seq<UIOrder>, key: real -> string)
    ensures var items := MergeByPrice(orders, key);
            forall i :: 0 <= i < |items| ==> LevelFromFirstOrder(orders, key, items[i])
  {
    var items := MergeByPrice(orders, key);
    forall i | 0 <= i < |items|
      ensures LevelFromFirstOrder(orders, key, items[i])
    {
      MergeLevelAt(orders, key, i);
    }
  }

  // ---------------------------------------------------------------------------
  // Conservation of size across aggregation

  function SumOfGroups(orders: seq<UIOrder>, key: real -> string, ks: seq<string>): real
  {
    if ks == [] then 0.0
    else SumOfGroups(orders, key, ks[..|ks| - 1]) + SumSizes(Group(orders, key, ks[|ks| - 1]))
  }

  /** The fills the aggregation nets out: that of the first order of each level. */
  function SumFirstFills(orders: seq<UIOrder>, key: real -> string, ks: seq<string>): real
  {
    if ks == [] then 0.0
    else
      var g := Group(orders, key, ks[|ks| - 1]);
      SumFirstFills(orders, key, ks[..|ks| - 1]) + (if g == [] then 0.0 else FilledOrZero(g[0]))
  }

  function SumItemSizes(items: seq<OrderBookItem>): real
  {
    if items == [] then 0.0 else SumItemSizes(items[..|items| - 1]) + items[|items| - 1].size
  }

  lemma {:induction false} FilterSnoc<T>(s: seq<T>, x: T, p: T -> bool)
    ensures Filter(s + [x], p) == Filter(s, p) + (if p(x) then [x] else [])
    decreases |s|
  {
    if s == [] {
      assert [x][1..] == [];
    } else {
      assert (s + [x])[0] == s[0];
      assert (s + [x])[1..] == s[1..] + [x];
      FilterSnoc(s[1..], x, p);
    }
  }

  lemma SumSizesSnoc(s: seq<UIOrder>, o: UIOrder)
    ensures SumSizes(s + [o]) == SumSizes(s) + o.size
  {
    assert (s + [o])[..|s|] == s;
  }

  lemma GroupSnoc(orders: seq<UIOrder>, o: UIOrder, key: real -> string, k: string)
    ensures SumSizes(Group(orders + [o], key, k))
              == SumSizes(Group(orders, key, k)) + (if key(o.price) == k then o.size else 0.0)
  {
    FilterSnoc(orders, o, KeyIs(key, k));
    if key(o.price) == k {
      assert KeyIs(key, k)(o);
      SumSizesSnoc(Group(orders, key, k), o);
    } else {
      assert !KeyIs(key, k)(o);
      assert Group(orders + [o], key, k) == Group(orders, key, k);
    }
  }

  lemma {:induction false} SumOfGroupsSnoc(orders: seq<UIOrder>, o: UIOrder, key: real -> string, ks: seq<string>)
    requires forall i, j :: 0 <= i < j < |ks| ==> ks[i] != ks[j]
    ensures SumOfGroups(orders + [o], key, ks)
              == SumOfGroups(orders, key, ks) + (if key(o.price) in ks then o.size else 0.0)
    decreases |ks|
  {
    if ks != [] {
      var init := ks[..|ks| - 1];
      var k := ks[|ks| - 1];
      assert ks == init + [k];
      SumOfGroupsSnoc(orders, o, key, init);
      GroupSnoc(orders, o, key, k);
      if key(o.price) == k {
        assert key(o.price) !in init;
      }
    }
  }

  lemma {:induction false} SumOfGroupsAppend(orders: seq<UIOrder>, key: real -> string, ks: seq<string>, k: string)
    ensures SumOfGroups(orders, key, ks + [k]) == SumOfGroups(orders, key, ks) + SumSizes(Group(orders, key, k))
  {
    assert (ks + [k])[..|ks|] == ks;
  }

  /** An order whose key is new to the orders before it forms a level of its own. */
  lemma NewKeyGroup(init: seq<UIOrder>, o: UIOrder, key: real -> string)
    requires key(o.price) !in PriceKeys(init, key)
    ensures SumSizes(Group(init + [o], key, key(o.price))) == o.size
  {
    var k := key(o.price);
    GroupSnoc(init, o, key, k);
  }

  lemma PriceKeysSnoc(init: seq<UIOrder>, o: UIOrder, key: real -> string)
    ensures PriceKeys(init + [o], key)
              == if key(o.price) in PriceKeys(init, key) then PriceKeys(init, key) else PriceKeys(init, key) + [key(o.price)]
  {
    assert (init + [o])[..|init|] == init;
  }

  lemma GroupsPartitionStep(init: seq<UIOrder>, o: UIOrder, key: real -> string)
    requires SumOfGroups(init, key, PriceKeys(init, key)) == SumSizes(init)
    ensures SumOfGroups(init + [o], key, PriceKeys(init + [o], key)) == SumSizes(init + [o])
  {
    var ks := PriceKeys(init, key);
    var k := key(o.price);
    PriceKeysSnoc(init, o, key);
    SumOfGroupsSnoc(init, o, key, ks);
    SumSizesSnoc(init, o);
    if k !in ks {
      SumOfGroupsAppend(init + [o], key, ks, k);
      NewKeyGroup(init, o, key);
    }
  }

  /** Grouping by key partitions the orders: the levels' sizes add up to the total size. */
  lemma {:induction false} GroupsPartition(orders: seq<UIOrder>, key: real -> string)
    ensures SumOfGroups(orders, key, PriceKeys(orders, key)) == SumSizes(orders)
    decreases |orders|
  {
    if orders != [] {
      var init := orders[..|orders| - 1];
      assert orders == init + [orders[|orders| - 1]];
      GroupsPartition(init, key);
      GroupsPartitionStep(init, orders[|orders| - 1], key);
    }
  }

  lemma {:induction false} MergeKeysSum(orders: seq<UIOrder>, key: real -> string, ks: seq<string>)
    requires forall i :: 0 <= i < |ks| ==> Group(orders, key, ks[i]) != []
    ensures SumItemSizes(MergeKeys(orders, key, ks)) == SumOfGroups(orders, key, ks) - SumFirstFills(orders, key, ks)
    decreases |ks|
  {
    if ks != [] {
      var items := MergeKeys(orders, key, ks);
      MergeKeysSum(orders, key, ks[..|ks| - 1]);
      assert items[..|items| - 1] == MergeKeys(orders, key, ks[..|ks| - 1]);
    }
  }

  /**
    Aggregation conserves size up to the fills it nets out: the levels add up
    to the total size of the orders minus the fill of each level's first
    order. Fills of later orders at the same price are not subtracted.
   */
  lemma MergeConservesSize(orders: seq<UIOrder>, key: real -> string)
    ensures SumItemSizes(MergeByPrice(orders, key))
              == SumSizes(orders) - SumFirstFills(orders, key, PriceKeys(orders, key))
  {
    KeysHaveGroups(orders, key);
    MergeKeysSum(orders, key, PriceKeys(orders, key));
    GroupsPartition(orders, key);
  }

  /** Size left after each order's own fill, over all orders. */
  function SumNetSizes(orders: seq<UIOrder>): real
  {
    if orders == [] then 0.0
    else SumNetSizes(orders[..|orders| - 1]) + orders[|orders| - 1].size - FilledOrZero(orders[|orders| - 1])
  }

  /**
    Two partly filled orders at one price: the level shows 20 - 4 = 16, not
    the 20 - 4 - 3 = 13 that netting every order's fill would give.
   */
  lemma LaterFillsAtSamePriceAreNotNetted(raw: SignedOrder)
    ensures var a := UIOrder(raw, Sell, 10.0, Some(4.0), 2.0, None);
            var b := UIOrder(raw, Sell, 10.0, Some(3.0), 2.0, None);
            var key := (p: real) => "2.00";
            SumItemSizes(MergeByPrice([a, b], key)) == 16.0 && SumNetSizes([a, b]) == 13.0
  {
    var a := UIOrder(raw, Sell, 10.0, Some(4.0), 2.0, None);
    var b := UIOrder(raw, Sell, 10.0, Some(3.0), 2.0, None);
    var key := (p: real) => "2.00";
    var orders := [a, b];
    assert orders[..1] == [a];
    assert [a][..0] == [];
    assert PriceKeys(orders, key) == ["2.00"] by {
      assert PriceKeys([a], key) == ["2.00"];
    }
    assert Group(orders, key, "2.00") == orders by {
      assert KeyIs(key, "2.00")(a) && KeyIs(key, "2.00")(b);
      assert orders[1..] == [b];
      assert [b][1..] == [];
    }
    assert SumSizes(orders) == 20.0 by {
      SumSizesSnoc([a], b);
      SumSizesSnoc([], a);
      assert [] + [a] == [a];
      assert [a] + [b] == orders;
    }
    var items := MergeKeys(orders, key, ["2.00"]);
    assert MergeByPrice(orders, key) == items;
    assert items == [MergeGroup(orders)];
    assert items[..0] == [];
    assert SumNetSizes(orders) == 13.0 by {
      assert SumNetSizes([a]) == 6.0;
    }
  }
}
