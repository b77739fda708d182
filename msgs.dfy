/**
 * The per-block market-event publisher of `app/pub/msgs.go`: the three message kinds, the
 * book delta of an order event, the rendering of every record into goavro's native form,
 * the codec registry and the dispatch from a message kind to its codec.
 */
module Pub {
  import opened Wrappers
  import opened GoNative

  // ---------------------------------------------------------------------------------------
  // Message kinds
  // ---------------------------------------------------------------------------------------

  /** Go's `msgType`, an `int8` whose three named values come from `iota`. */
  type MsgType = Int8

  const AccountsTpe: MsgType := 0
  const BooksTpe: MsgType := 1
  const TradesAndOrdersTpe: MsgType := 2

  predicate IsKnownMsgType(t: MsgType) {
    t == AccountsTpe || t == BooksTpe || t == TradesAndOrdersTpe
  }

  /** `msgType.String`: the top-level record name of each kind's schema, "Unknown" otherwise. */
  function MsgTypeString(t: MsgType): (name: string)
    ensures name == "Accounts" <==> t == AccountsTpe
    ensures name == "Books" <==> t == BooksTpe
    ensures name == "TradesAndOrders" <==> t == TradesAndOrdersTpe
    ensures name == "Unknown" <==> !IsKnownMsgType(t)
  {
    if t == AccountsTpe then "Accounts"
    else if t == BooksTpe then "Books"
    else if t == TradesAndOrdersTpe then "TradesAndOrders"
    else "Unknown"
  }

  // ---------------------------------------------------------------------------------------
  // Records
  // ---------------------------------------------------------------------------------------

  /** `orderPkg.ChangeType`: the six lifecycle statuses, and any other value of the type. */
  datatype ChangeType = Ack | Canceled | Expired | IocNoFill | PartialFill | FullyFill | OtherChange(tag: int)

  /** `orderPkg.ExecutionType`; its values are not part of this model, only their identity. */
  datatype ExecutionType = ExecutionType(tag: int)

  /**
   * The string renderings of the order enumerations, which live in `orderPkg`
   * (`ChangeType.String`, `IToSide`, `IToOrderType`, `IToTimeInForce`, `ExecutionType.String`).
   * They are taken as given functions: nothing is assumed about them.
   */
  datatype EnumNames = EnumNames(
    changeType: ChangeType -> string,
    side: Int8 -> string,
    orderType: Int8 -> string,
    timeInForce: Int8 -> string,
    executionType: ExecutionType -> string)

  datatype Trade = Trade(
    id: string, symbol: string, price: Int64, qty: Int64,
    sid: string, bid: string, sfee: string, bfee: string)

  /** Go's `trades`: a counter and the trades of one block. */
  datatype Trades = Trades(numOfMsgs: Int64, trades: seq<Trade>)

  /** Go's `order`: one lifecycle transition of one order. */
  datatype Order = Order(
    symbol: string,
    status: ChangeType,
    orderId: string,
    tradeId: string,
    owner: string,
    side: Int8,
    orderType: Int8,
    price: Int64,
    qty: Int64,
    lastExecutedPrice: Int64,
    lastExecutedQty: Int64,
    cumQty: Int64,
    fee: string,
    orderCreationTime: Int64,
    transactionTime: Int64,
    timeInForce: Int8,
    currentExecutionType: ExecutionType,
    txHash: string)

  /** Go's `orders`: a counter and the order events of one block. */
  datatype Orders = Orders(numOfMsgs: Int64, orders: seq<Order>)

  /** Go's `tradesAndOrders` envelope. */
  datatype TradesAndOrders = TradesAndOrders(
    height: Int64, timestamp: Int64, numOfMsgs: Int64, trades: Trades, orders: Orders)

  datatype PriceLevel = PriceLevel(price: Int64, lastQty: Int64)

  datatype OrderBookDelta = OrderBookDelta(symbol: string, buys: seq<PriceLevel>, sells: seq<PriceLevel>)

  /** Go's `Books` envelope. */
  datatype Books = Books(height: Int64, timestamp: Int64, numOfMsgs: Int64, books: seq<OrderBookDelta>)

  datatype AssetBalance = AssetBalance(asset: string, free: Int64, frozen: Int64, locked: Int64)

  datatype Account = Account(owner: string, balances: seq<AssetBalance>)

  /** Go's `accounts` envelope; unlike the other two it has no timestamp. */
  datatype Accounts = Accounts(height: Int64, numOfMsgs: Int64, accounts: seq<Account>)

  // ---------------------------------------------------------------------------------------
  // Order-book delta
  // ---------------------------------------------------------------------------------------

  /** The statuses whose remaining quantity leaves the book. */
  predicate LeavesBook(s: ChangeType) {
    s == Expired || s == IocNoFill || s == Canceled
  }

  /**
   * `order.effectQtyToOrderBook`, with Go's int64 wrap-around on negation and subtraction: the
   * policy table, exact wherever the int64 result does not overflow.
   */
  function EffectQtyToOrderBook(o: Order): (delta: Int64)
    ensures o.status == Ack ==> delta == o.qty
    ensures (o.status == FullyFill || o.status == PartialFill) && o.lastExecutedQty != INT64_MIN ==>
      delta == -o.lastExecutedQty
    ensures LeavesBook(o.status) && InInt64(o.cumQty - o.qty) ==> delta == o.cumQty - o.qty
    ensures o.status.OtherChange? ==> delta == 0
  {
    match o.status
    case Ack => o.qty
    case FullyFill | PartialFill => Wrap64(-(o.lastExecutedQty as int))
    case Expired | IocNoFill | Canceled => Wrap64(o.cumQty - o.qty)
    case OtherChange(_) => 0
  }

  /** With non-negative quantities no case of the table overflows. */
  lemma EffectExactForNonNegativeQuantities(o: Order)
    requires 0 <= o.qty && 0 <= o.lastExecutedQty && 0 <= o.cumQty
    ensures EffectQtyToOrderBook(o) ==
      match o.status
      case Ack => o.qty
      case FullyFill | PartialFill => -o.lastExecutedQty
      case Expired | IocNoFill | Canceled => o.cumQty - o.qty
      case OtherChange(_) => 0
  {
  }

  /** The quantity an expired, unfilled or cancelled order takes off the book is never positive. */
  lemma LeavingOrderNeverAddsToBook(o: Order)
    requires LeavesBook(o.status)
    requires 0 <= o.cumQty <= o.qty
    ensures -o.qty <= EffectQtyToOrderBook(o) <= 0
  {
  }

  // ---------------------------------------------------------------------------------------
  // Native rendering: specification
  // ---------------------------------------------------------------------------------------

  const TradesRecordName: string := "org.binance.dex.model.avro.Trades"
  const OrdersRecordName: string := "org.binance.dex.model.avro.Orders"

  const TradeKeys: set<string> := {"id", "symbol", "price", "qty", "sid", "bid", "sfee", "bfee"}
  const OrderKeys: set<string> := {
    "symbol", "status", "orderId", "tradeId", "owner", "side", "orderType", "price", "qty",
    "lastExecutedPrice", "lastExecutedQty", "cumQty", "fee", "orderCreationTime",
    "transactionTime", "timeInForce", "currentExecutionType", "txHash"}
  const PriceLevelKeys: set<string> := {"price", "lastQty"}
  const AssetBalanceKeys: set<string> := {"asset", "free", "frozen", "locked"}

  /** The rendering of each element of `xs`, in order. */
  function Each<T>(xs: seq<T>, render: T -> Value): seq<Value>
  {
    if xs == [] then [] else [render(xs[0])] + Each(xs[1..], render)
  }

  lemma {:induction false} EachAt<T>(xs: seq<T>, render: T -> Value)
    ensures |Each(xs, render)| == |xs|
    ensures forall i :: 0 <= i < |xs| ==> Each(xs, render)[i] == render(xs[i])
  {
    if xs != [] {
      EachAt(xs[1..], render);
    }
  }

  /** `v` is a list with one entry per element of `xs`, entry `i` rendering `xs[i]`. */
  ghost predicate RendersEach<T>(v: Value, xs: seq<T>, render: T -> Value) {
    v.List? && |v.items| == |xs| && forall i :: 0 <= i < |xs| ==> v.items[i] == render(xs[i])
  }

  lemma RendersEachOfEach<T>(xs: seq<T>, render: T -> Value)
    ensures RendersEach(List(Each(xs, render)), xs, render)
  {
    EachAt(xs, render);
  }

  /** `Trade.toNativeMap`: every field under its own key, copied verbatim. */
  function TradeNative(t: Trade): (v: Value)
    ensures v.Map? && v.fields.Keys == TradeKeys
  {
    Map(map[
      "id" := Str(t.id), "symbol" := Str(t.symbol), "price" := Num(t.price), "qty" := Num(t.qty),
      "sid" := Str(t.sid), "bid" := Str(t.bid), "sfee" := Str(t.sfee), "bfee" := Str(t.bfee)])
  }

  /**
   * `order.toNativeMap`: the enumerations rendered by name, everything else verbatim. The book
   * delta of `EffectQtyToOrderBook` is not part of the rendering.
   */
  function OrderNative(o: Order, names: EnumNames): (v: Value)
    ensures v.Map? && v.fields.Keys == OrderKeys
  {
    Map(map[
      "symbol" := Str(o.symbol),
      "status" := Str(names.changeType(o.status)),
      "orderId" := Str(o.orderId),
      "tradeId" := Str(o.tradeId),
      "owner" := Str(o.owner),
      "side" := Str(names.side(o.side)),
      "orderType" := Str(names.orderType(o.orderType)),
      "price" := Num(o.price),
      "qty" := Num(o.qty),
      "lastExecutedPrice" := Num(o.lastExecutedPrice),
      "lastExecutedQty" := Num(o.lastExecutedQty),
      "cumQty" := Num(o.cumQty),
      "fee" := Str(o.fee),
      "orderCreationTime" := Num(o.orderCreationTime),
      "transactionTime" := Num(o.transactionTime),
      "timeInForce" := Str(names.timeInForce(o.timeInForce)),
      "currentExecutionType" := Str(names.executionType(o.currentExecutionType)),
      "txHash" := Str(o.txHash)])
  }

  /** The renderer `orders.ToNativeMap` applies to each order. */
  function OrderRenderer(names: EnumNames): Order -> Value
  {
    o => OrderNative(o, names)
  }

  /** `PriceLevel.ToNativeMap`. */
  function PriceLevelNative(p: PriceLevel): (v: Value)
    ensures v.Map? && v.fields.Keys == PriceLevelKeys
  {
    Map(map["price" := Num(p.price), "lastQty" := Num(p.lastQty)])
  }

  /** `AssetBalance.ToNativeMap`. */
  function AssetBalanceNative(b: AssetBalance): (v: Value)
    ensures v.Map? && v.fields.Keys == AssetBalanceKeys
  {
    Map(map["asset" := Str(b.asset), "free" := Num(b.free), "frozen" := Num(b.frozen), "locked" := Num(b.locked)])
  }

  /** What `trades.ToNativeMap` builds. */
  function TradesNative(msg: Trades): Value
  {
    Map(map["numOfMsgs" := Num(msg.numOfMsgs), "trades" := List(Each(msg.trades, TradeNative))])
  }

  /** What `orders.ToNativeMap` builds. */
  function OrdersNative(msg: Orders, names: EnumNames): Value
  {
    Map(map["numOfMsgs" := Num(msg.numOfMsgs), "orders" := List(Each(msg.orders, OrderRenderer(names)))])
  }

  /** What `tradesAndOrders.ToNativeMap` builds. */
  function TradesAndOrdersNative(msg: TradesAndOrders, names: EnumNames): Value
  {
    var header := map["height" := Num(msg.height), "timestamp" := Num(msg.timestamp), "numOfMsgs" := Num(msg.numOfMsgs)];
    var withTrades :=
      if msg.trades.numOfMsgs > 0 then header["trades" := Map(map[TradesRecordName := TradesNative(msg.trades)])]
      else header;
    var withOrders :=
      if msg.orders.numOfMsgs > 0 then withTrades["orders" := Map(map[OrdersRecordName := OrdersNative(msg.orders, names)])]
      else withTrades;
    Map(withOrders)
  }

  /** What `OrderBookDelta.ToNativeMap` builds. */
  function OrderBookDeltaNative(d: OrderBookDelta): Value
  {
    Map(map[
      "symbol" := Str(d.symbol),
      "buys" := List(Each(d.buys, PriceLevelNative)),
      "sells" := List(Each(d.sells, PriceLevelNative))])
  }

  /** What `Books.ToNativeMap` builds. */
  function BooksNative(msg: Books): Value
  {
    var header := map["height" := Num(msg.height), "timestamp" := Num(msg.timestamp), "numOfMsgs" := Num(msg.numOfMsgs)];
    Map(if msg.numOfMsgs > 0 then header["books" := List(Each(msg.books, OrderBookDeltaNative))] else header)
  }

  /** What `Account.ToNativeMap` builds. */
  function AccountNative(a: Account): Value
  {
    Map(map["owner" := Str(a.owner), "balances" := List(Each(a.balances, AssetBalanceNative))])
  }

  /** What `accounts.ToNativeMap` builds. */
  function AccountsNative(msg: Accounts): Value
  {
    var header := map["height" := Num(msg.height), "numOfMsgs" := Num(msg.numOfMsgs)];
    Map(if msg.numOfMsgs > 0 then header["accounts" := List(Each(msg.accounts, AccountNative))] else header)
  }

  // ---------------------------------------------------------------------------------------
  // Native rendering: what the renderings promise
  // ---------------------------------------------------------------------------------------

  function StrField(f: map<string, Value>, k: string): Option<string> {
    if k in f && f[k].Str? then Some(f[k].s) else None
  }

  function LongField(f: map<string, Value>, k: string): Option<Int64> {
    if k in f && f[k].Num? && InInt64(f[k].n) then Some(f[k].n) else None
  }

  /** Reads a trade back from its native form. */
  function TradeFromNative(v: Value): Option<Trade>
  {
    if !v.Map? then None
    else
      var f := v.fields;
      var id, symbol, price, qty := StrField(f, "id"), StrField(f, "symbol"), LongField(f, "price"), LongField(f, "qty");
      var sid, bid, sfee, bfee := StrField(f, "sid"), StrField(f, "bid"), StrField(f, "sfee"), StrField(f, "bfee");
      if id.Some? && symbol.Some? && price.Some? && qty.Some? && sid.Some? && bid.Some? && sfee.Some? && bfee.Some?
      then Some(Trade(id.value, symbol.value, price.value, qty.value, sid.value, bid.value, sfee.value, bfee.value))
      else None
  }

  /** Reads a price level back from its native form. */
  function PriceLevelFromNative(v: Value): Option<PriceLevel>
  {
    if !v.Map? then None
    else
      var price, lastQty := LongField(v.fields, "price"), LongField(v.fields, "lastQty");
      if price.Some? && lastQty.Some? then Some(PriceLevel(price.value, lastQty.value)) else None
  }

  /** Reads an asset balance back from its native form. */
  function AssetBalanceFromNative(v: Value): Option<AssetBalance>
  {
    if !v.Map? then None
    else
      var f := v.fields;
      var asset, free, frozen, locked := StrField(f, "asset"), LongField(f, "free"), LongField(f, "frozen"), LongField(f, "locked");
      if asset.Some? && free.Some? && frozen.Some? && locked.Some?
      then Some(AssetBalance(asset.value, free.value, frozen.value, locked.value))
      else None
  }

  /** A trade's native form loses nothing. */
  lemma TradeNativeRoundTrip(t: Trade)
    ensures TradeFromNative(TradeNative(t)) == Some(t)
  {
  }

  /** A price level's native form loses nothing. */
  lemma PriceLevelNativeRoundTrip(p: PriceLevel)
    ensures PriceLevelFromNative(PriceLevelNative(p)) == Some(p)
  {
  }

  /** An asset balance's native form loses nothing. */
  lemma AssetBalanceNativeRoundTrip(b: AssetBalance)
    ensures AssetBalanceFromNative(AssetBalanceNative(b)) == Some(b)
  {
  }

  /**
   * Two order events with the same native form agree on every field that is copied verbatim;
   * the enumerated fields are only as distinguishable as their names.
   */
  lemma OrderNativeKeepsVerbatimFields(o1: Order, o2: Order, names: EnumNames)
    requires OrderNative(o1, names) == OrderNative(o2, names)
    ensures o1.symbol == o2.symbol
    ensures o1.orderId == o2.orderId
    ensures o1.tradeId == o2.tradeId
    ensures o1.owner == o2.owner
    ensures o1.price == o2.price
    ensures o1.qty == o2.qty
    ensures o1.lastExecutedPrice == o2.lastExecutedPrice
    ensures o1.lastExecutedQty == o2.lastExecutedQty
    ensures o1.cumQty == o2.cumQty
    ensures o1.fee == o2.fee
    ensures o1.orderCreationTime == o2.orderCreationTime
    ensures o1.transactionTime == o2.transactionTime
    ensures o1.txHash == o2.txHash
    ensures names.changeType(o1.status) == names.changeType(o2.status)
  {
    OrderNativeFieldValues(o1, names);
    OrderNativeFieldValues(o2, names);
  }

  /** Each key of an order event's rendering holds its own field, the enumerations by name. */
  lemma OrderNativeFieldValues(o: Order, names: EnumNames)
    ensures OrderNative(o, names).fields["symbol"] == Str(o.symbol)
    ensures OrderNative(o, names).fields["orderId"] == Str(o.orderId)
    ensures OrderNative(o, names).fields["tradeId"] == Str(o.tradeId)
    ensures OrderNative(o, names).fields["owner"] == Str(o.owner)
    ensures OrderNative(o, names).fields["price"] == Num(o.price)
    ensures OrderNative(o, names).fields["qty"] == Num(o.qty)
    ensures OrderNative(o, names).fields["lastExecutedPrice"] == Num(o.lastExecutedPrice)
    ensures OrderNative(o, names).fields["lastExecutedQty"] == Num(o.lastExecutedQty)
    ensures OrderNative(o, names).fields["cumQty"] == Num(o.cumQty)
    ensures OrderNative(o, names).fields["fee"] == Str(o.fee)
    ensures OrderNative(o, names).fields["orderCreationTime"] == Num(o.orderCreationTime)
    ensures OrderNative(o, names).fields["transactionTime"] == Num(o.transactionTime)
    ensures OrderNative(o, names).fields["txHash"] == Str(o.txHash)
    ensures OrderNative(o, names).fields["status"] == Str(names.changeType(o.status))
    ensures OrderNative(o, names).fields["side"] == Str(names.side(o.side))
    ensures OrderNative(o, names).fields["orderType"] == Str(names.orderType(o.orderType))
    ensures OrderNative(o, names).fields["timeInForce"] == Str(names.timeInForce(o.timeInForce))
    ensures OrderNative(o, names).fields["currentExecutionType"] == Str(names.executionType(o.currentExecutionType))
  {
  }

  /** The trades list is always present, even when empty, and renders every trade in order. */
  lemma TradesNativeShape(msg: Trades)
    ensures TradesNative(msg).Map?
    ensures var f := TradesNative(msg).fields;
      && f.Keys == {"numOfMsgs", "trades"}
      && f["numOfMsgs"] == Num(msg.numOfMsgs)
      && RendersEach(f["trades"], msg.trades, TradeNative)
  {
    RendersEachOfEach(msg.trades, TradeNative);
  }

  /** The orders list is always present, even when empty, and renders every order in order. */
  lemma OrdersNativeShape(msg: Orders, names: EnumNames)
    ensures OrdersNative(msg, names).Map?
    ensures var f := OrdersNative(msg, names).fields;
      && f.Keys == {"numOfMsgs", "orders"}
      && f["numOfMsgs"] == Num(msg.numOfMsgs)
      && RendersEach(f["orders"], msg.orders, OrderRenderer(names))
  {
    RendersEachOfEach(msg.orders, OrderRenderer(names));
  }

  /**
   * The envelope always carries height, timestamp and counter verbatim; each sub-payload is
   * present exactly when its own counter is positive, nested under its record name.
   */
  lemma TradesAndOrdersNativeShape(msg: TradesAndOrders, names: EnumNames)
    ensures TradesAndOrdersNative(msg, names).Map?
    ensures var f := TradesAndOrdersNative(msg, names).fields;
      && f.Keys <= {"height", "timestamp", "numOfMsgs", "trades", "orders"}
      && "height" in f && f["height"] == Num(msg.height)
      && "timestamp" in f && f["timestamp"] == Num(msg.timestamp)
      && "numOfMsgs" in f && f["numOfMsgs"] == Num(msg.numOfMsgs)
      && ("trades" in f <==> msg.trades.numOfMsgs > 0)
      && ("trades" in f ==> f["trades"] == Map(map[TradesRecordName := TradesNative(msg.trades)]))
      && ("orders" in f <==> msg.orders.numOfMsgs > 0)
      && ("orders" in f ==> f["orders"] == Map(map[OrdersRecordName := OrdersNative(msg.orders, names)]))
  {
  }

  /** Both sides of a book delta are always present and render every level in order. */
  lemma OrderBookDeltaNativeShape(d: OrderBookDelta)
    ensures OrderBookDeltaNative(d).Map?
    ensures var f := OrderBookDeltaNative(d).fields;
      && f.Keys == {"symbol", "buys", "sells"}
      && f["symbol"] == Str(d.symbol)
      && RendersEach(f["buys"], d.buys, PriceLevelNative)
      && RendersEach(f["sells"], d.sells, PriceLevelNative)
  {
    RendersEachOfEach(d.buys, PriceLevelNative);
    RendersEachOfEach(d.sells, PriceLevelNative);
  }

  /** The books list is present exactly when the counter is positive, whatever the list's length. */
  lemma BooksNativeShape(msg: Books)
    ensures BooksNative(msg).Map?
    ensures var f := BooksNative(msg).fields;
      && f.Keys == {"height", "timestamp", "numOfMsgs"} + (if msg.numOfMsgs > 0 then {"books"} else {})
      && f["height"] == Num(msg.height)
      && f["timestamp"] == Num(msg.timestamp)
      && f["numOfMsgs"] == Num(msg.numOfMsgs)
      && ("books" in f ==> RendersEach(f["books"], msg.books, OrderBookDeltaNative))
  {
    RendersEachOfEach(msg.books, OrderBookDeltaNative);
  }

  /** The balances list is always present, even when empty, and renders every balance in order. */
  lemma AccountNativeShape(a: Account)
    ensures AccountNative(a).Map?
    ensures var f := AccountNative(a).fields;
      && f.Keys == {"owner", "balances"}
      && f["owner"] == Str(a.owner)
      && RendersEach(f["balances"], a.balances, AssetBalanceNative)
  {
    RendersEachOfEach(a.balances, AssetBalanceNative);
  }

  /**
   * The accounts envelope never has a timestamp; its list is present exactly when the counter is
   * positive, whatever the list's length.
   */
  lemma AccountsNativeShape(msg: Accounts)
    ensures AccountsNative(msg).Map?
    ensures var f := AccountsNative(msg).fields;
      && f.Keys == {"height", "numOfMsgs"} + (if msg.numOfMsgs > 0 then {"accounts"} else {})
      && "timestamp" !in f
      && f["height"] == Num(msg.height)
      && f["numOfMsgs"] == Num(msg.numOfMsgs)
      && ("accounts" in f ==> RendersEach(f["accounts"], msg.accounts, AccountNative))
  {
    RendersEachOfEach(msg.accounts, AccountNative);
  }

  /**
   * Presence follows the counters, not the lists: a counter that is not positive drops the
   * sub-payload whatever its list holds, and a positive counter emits it even for an empty list.
   */
  lemma PresenceFollowsCounterNotList(tao: TradesAndOrders, books: Books, accounts: Accounts, names: EnumNames)
    ensures tao.trades.numOfMsgs <= 0 ==> "trades" !in TradesAndOrdersNative(tao, names).fields
    ensures tao.trades.numOfMsgs > 0 && tao.trades.trades == [] ==>
      TradesAndOrdersNative(tao, names).fields["trades"].fields[TradesRecordName].fields["trades"] == List([])
    ensures tao.orders.numOfMsgs <= 0 ==> "orders" !in TradesAndOrdersNative(tao, names).fields
    ensures tao.orders.numOfMsgs > 0 && tao.orders.orders == [] ==>
      TradesAndOrdersNative(tao, names).fields["orders"].fields[OrdersRecordName].fields["orders"] == List([])
    ensures books.numOfMsgs <= 0 ==> "books" !in BooksNative(books).fields
    ensures books.numOfMsgs > 0 && books.books == [] ==> BooksNative(books).fields["books"] == List([])
    ensures accounts.numOfMsgs <= 0 ==> "accounts" !in AccountsNative(accounts).fields
    ensures accounts.numOfMsgs > 0 && accounts.accounts == [] ==> AccountsNative(accounts).fields["accounts"] == List([])
  {
  }

  /** When every counter matches its list, a sub-payload is present exactly when its list is non-empty. */
  lemma PresenceWhenCountersMatch(tao: TradesAndOrders, books: Books, accounts: Accounts, names: EnumNames)
    requires tao.trades.numOfMsgs == |tao.trades.trades| && tao.orders.numOfMsgs == |tao.orders.orders|
    requires books.numOfMsgs == |books.books|
    requires accounts.numOfMsgs == |accounts.accounts|
    ensures "trades" in TradesAndOrdersNative(tao, names).fields <==> tao.trades.trades != []
    ensures "orders" in TradesAndOrdersNative(tao, names).fields <==> tao.orders.orders != []
    ensures "books" in BooksNative(books).fields <==> books.books != []
    ensures "accounts" in AccountsNative(accounts).fields <==> accounts.accounts != []
  {
  }

  // ---------------------------------------------------------------------------------------
  // Native rendering: the builders
  // ---------------------------------------------------------------------------------------

  /** The loop every builder runs: a slice of `|xs|` maps, entry `idx` rendering `xs[idx]`. */
  method RenderSlice<T>(xs: seq<T>, render: T -> Value) returns (vs: seq<Value>)
    ensures vs == Each(xs, render)
  {
    var out := new Value[|xs|];
    for idx := 0 to |xs|
      invariant forall k :: 0 <= k < idx ==> out[k] == render(xs[k])
    {
      out[idx] := render(xs[idx]);
    }
    vs := out[..];
    EachAt(xs, render);
    assert |vs| == |Each(xs, render)|;
    assert forall k :: 0 <= k < |vs| ==> vs[k] == Each(xs, render)[k];
  }

  /** `trades.ToNativeMap`. */
  method TradesToNativeMap(msg: Trades) returns (native: Value)
    ensures native == TradesNative(msg)
  {
    var m: map<string, Value> := map[];
    m := m["numOfMsgs" := Num(msg.numOfMsgs)];
    var ts := RenderSlice(msg.trades, TradeNative);
    m := m["trades" := List(ts)];
    native := Map(m);
  }

  /** `orders.ToNativeMap`. */
  method OrdersToNativeMap(msg: Orders, names: EnumNames) returns (native: Value)
    ensures native == OrdersNative(msg, names)
  {
    var m: map<string, Value> := map[];
    m := m["numOfMsgs" := Num(msg.numOfMsgs)];
    var os := RenderSlice(msg.orders, OrderRenderer(names));
    m := m["orders" := List(os)];
    native := Map(m);
  }

  /** `tradesAndOrders.ToNativeMap`. */
  method TradesAndOrdersToNativeMap(msg: TradesAndOrders, names: EnumNames) returns (native: Value)
    ensures native == TradesAndOrdersNative(msg, names)
  {
    var m: map<string, Value> := map[];
    m := m["height" := Num(msg.height)];
    m := m["timestamp" := Num(msg.timestamp)];
    m := m["numOfMsgs" := Num(msg.numOfMsgs)];
    if msg.trades.numOfMsgs > 0 {
      var t := TradesToNativeMap(msg.trades);
      m := m["trades" := Map(map[TradesRecordName := t])];
    }
    if msg.orders.numOfMsgs > 0 {
      var o := OrdersToNativeMap(msg.orders, names);
      m := m["orders" := Map(map[OrdersRecordName := o])];
    }
    native := Map(m);
  }

  /** `OrderBookDelta.ToNativeMap`. */
  method OrderBookDeltaToNativeMap(d: OrderBookDelta) returns (native: Value)
    ensures native == OrderBookDeltaNative(d)
  {
    var m: map<string, Value> := map[];
    m := m["symbol" := Str(d.symbol)];
    var bs := RenderSlice(d.buys, PriceLevelNative);
    m := m["buys" := List(bs)];
    var ss := RenderSlice(d.sells, PriceLevelNative);
    m := m["sells" := List(ss)];
    native := Map(m);
  }

  /** `Books.ToNativeMap`. */
  method BooksToNativeMap(msg: Books) returns (native: Value)
    ensures native == BooksNative(msg)
  {
    var m: map<string, Value> := map[];
    m := m["height" := Num(msg.height)];
    m := m["timestamp" := Num(msg.timestamp)];
    m := m["numOfMsgs" := Num(msg.numOfMsgs)];
    if msg.numOfMsgs > 0 {
      var bs := RenderSlice(msg.books, OrderBookDeltaNative);
      m := m["books" := List(bs)];
    }
    native := Map(m);
  }

  /** `Account.ToNativeMap`. */
  method AccountToNativeMap(a: Account) returns (native: Value)
    ensures native == AccountNative(a)
  {
    var m: map<string, Value> := map[];
    m := m["owner" := Str(a.owner)];
    var bs := RenderSlice(a.balances, AssetBalanceNative);
    m := m["balances" := List(bs)];
    native := Map(m);
  }

  /** `accounts.ToNativeMap`. */
  method AccountsToNativeMap(msg: Accounts) returns (native: Value)
    ensures native == AccountsNative(msg)
  {
    var m: map<string, Value> := map[];
    m := m["height" := Num(msg.height)];
    m := m["numOfMsgs" := Num(msg.numOfMsgs)];
    if msg.numOfMsgs > 0 {
      var accs := RenderSlice(msg.accounts, AccountNative);
      m := m["accounts" := List(accs)];
    }
    native := Map(m);
  }

  // ---------------------------------------------------------------------------------------
  // Dispatch
  // ---------------------------------------------------------------------------------------

  /** The records that satisfy Go's `AvroMsg` interface. */
  datatype AvroMsg =
    | TradesAndOrdersMsg(TradesAndOrders)
    | TradesMsg(Trades)
    | OrdersMsg(Orders)
    | PriceLevelMsg(PriceLevel)
    | OrderBookDeltaMsg(OrderBookDelta)
    | BooksMsg(Books)
    | AssetBalanceMsg(AssetBalance)
    | AccountMsg(Account)
    | AccountsMsg(Accounts)

  /** The native form of any `AvroMsg`. */
  function NativeOf(msg: AvroMsg, names: EnumNames): Value
  {
    match msg
    case TradesAndOrdersMsg(m) => TradesAndOrdersNative(m, names)
    case TradesMsg(m) => TradesNative(m)
    case OrdersMsg(m) => OrdersNative(m, names)
    case PriceLevelMsg(m) => PriceLevelNative(m)
    case OrderBookDeltaMsg(m) => OrderBookDeltaNative(m)
    case BooksMsg(m) => BooksNative(m)
    case AssetBalanceMsg(m) => AssetBalanceNative(m)
    case AccountMsg(m) => AccountNative(m)
    case AccountsMsg(m) => AccountsNative(m)
  }

  /** `AvroMsg.ToNativeMap`, dispatched on the record. */
  method ToNativeMap(msg: AvroMsg, names: EnumNames) returns (native: Value)
    ensures native == NativeOf(msg, names)
  {
    match msg
    case TradesAndOrdersMsg(m) => native := TradesAndOrdersToNativeMap(m, names);
    case TradesMsg(m) => native := TradesToNativeMap(m);
    case OrdersMsg(m) => native := OrdersToNativeMap(m, names);
    case PriceLevelMsg(m) => native := PriceLevelNative(m);
    case OrderBookDeltaMsg(m) => native := OrderBookDeltaToNativeMap(m);
    case BooksMsg(m) => native := BooksToNativeMap(m);
    case AssetBalanceMsg(m) => native := AssetBalanceNative(m);
    case AccountMsg(m) => native := AccountToNativeMap(m);
    case AccountsMsg(m) => native := AccountsToNativeMap(m);
  }

  newtype byte = b: int | 0 <= b < 0x100

  /** A compiled goavro codec; what it holds is goavro's business. */
  datatype Codec = Codec(schema: string)

  /** `codec.BinaryFromNative(nil, native)`: the bytes (nil when absent) and the error (nil when absent). */
  datatype Encoded = Encoded(bytes: Option<seq<byte>>, err: Option<string>)

  /** goavro's encoder, taken as a given function that may fail. */
  type Encoder = (Codec, Value) -> Encoded

  /** `goavro.NewCodec`, taken as a given function that may fail. */
  type Compiler = string -> Result<Codec>

  /** The schema texts of the three kinds; they are not part of this model. */
  datatype Schemas = Schemas(tradesAndOrders: string, books: string, account: string)

  /** The codec variable `goavro.NewCodec` leaves behind: nil on failure. */
  function CompiledCodec(r: Result<Codec>): (c: Option<Codec>)
    ensures c.Some? <==> r.Ok?
    ensures r.Ok? ==> c.value == r.value
  {
    if r.Ok? then Some(r.value) else None
  }

  function SchemaOf(schemas: Schemas, t: MsgType): string
    requires IsKnownMsgType(t)
  {
    if t == TradesAndOrdersTpe then schemas.tradesAndOrders
    else if t == BooksTpe then schemas.books
    else schemas.account
  }

  /** The order in which `initAvroCodecs` compiles the schemas. */
  const CompileOrder: seq<MsgType> := [TradesAndOrdersTpe, BooksTpe, AccountsTpe]

  /** The kinds `initAvroCodecs` compiles: a prefix of `CompileOrder` ending at the first failure. */
  function CompileAttempts(newCodec: Compiler, schemas: Schemas): (attempted: seq<MsgType>)
    ensures 1 <= |attempted| <= 3 && attempted == CompileOrder[..|attempted|]
    ensures forall i :: 0 <= i < |attempted| - 1 ==> newCodec(SchemaOf(schemas, attempted[i])).Ok?
    ensures |attempted| < 3 ==> newCodec(SchemaOf(schemas, attempted[|attempted| - 1])).Err?
  {
    if newCodec(schemas.tradesAndOrders).Err? then [TradesAndOrdersTpe]
    else if newCodec(schemas.books).Err? then [TradesAndOrdersTpe, BooksTpe]
    else CompileOrder
  }

  /** The error `initAvroCodecs` returns: that of the first schema that fails to compile. */
  function InitError(newCodec: Compiler, schemas: Schemas): (res: Option<string>)
    ensures res.None? <==>
      newCodec(schemas.tradesAndOrders).Ok? && newCodec(schemas.books).Ok? && newCodec(schemas.account).Ok?
    ensures var last := CompileAttempts(newCodec, schemas)[|CompileAttempts(newCodec, schemas)| - 1];
      res.Some? ==> newCodec(SchemaOf(schemas, last)) == Err(res.value)
  {
    if newCodec(schemas.tradesAndOrders).Err? then Some(newCodec(schemas.tradesAndOrders).error)
    else if newCodec(schemas.books).Err? then Some(newCodec(schemas.books).error)
    else if newCodec(schemas.account).Err? then Some(newCodec(schemas.account).error)
    else None
  }

  /** Initialisation fails exactly when it stopped early or the last schema failed. */
  lemma InitSucceedsIffAllCompiled(newCodec: Compiler, schemas: Schemas)
    ensures InitError(newCodec, schemas).None? <==>
      CompileAttempts(newCodec, schemas) == CompileOrder && newCodec(schemas.account).Ok?
  {
    assert SchemaOf(schemas, TradesAndOrdersTpe) == schemas.tradesAndOrders;
    assert SchemaOf(schemas, BooksTpe) == schemas.books;
    assert SchemaOf(schemas, AccountsTpe) == schemas.account;
  }

  const UnsupportedMsgTypePrefix: string := "doesn't support marshal kafka msg tpe: "

  /** The three codec variables of `app/pub/msgs.go`, gathered into one registry object. */
  class Registry {
    var tradesAndOrdersCodec: Option<Codec>
    var booksCodec: Option<Codec>
    var accountCodec: Option<Codec>
    /** The kinds whose schema has been handed to the compiler, in order. */
    ghost var compileLog: seq<MsgType>

    /** All three codecs are compiled. */
    predicate Ready()
      reads this
    {
      tradesAndOrdersCodec.Some? && booksCodec.Some? && accountCodec.Some?
    }

    /** Go's zero values: no codec compiled yet. */
    constructor ()
      ensures tradesAndOrdersCodec == None && booksCodec == None && accountCodec == None
      ensures compileLog == []
    {
      tradesAndOrdersCodec, booksCodec, accountCodec := None, None, None;
      compileLog := [];
    }

    /** `initAvroCodecs`: compile the three schemas in order, stopping at the first failure. */
    method InitAvroCodecs(newCodec: Compiler, schemas: Schemas) returns (res: Option<string>)
      modifies this
      ensures res == InitError(newCodec, schemas)
      ensures compileLog == old(compileLog) + CompileAttempts(newCodec, schemas)
      ensures tradesAndOrdersCodec == CompiledCodec(newCodec(schemas.tradesAndOrders))
      ensures booksCodec ==
        if BooksTpe in CompileAttempts(newCodec, schemas) then CompiledCodec(newCodec(schemas.books)) else old(booksCodec)
      ensures accountCodec ==
        if AccountsTpe in CompileAttempts(newCodec, schemas) then CompiledCodec(newCodec(schemas.account)) else old(accountCodec)
      ensures res.None? <==> Ready()
    {
      var r := newCodec(schemas.tradesAndOrders);
      compileLog := compileLog + [TradesAndOrdersTpe];
      tradesAndOrdersCodec := CompiledCodec(r);
      if r.Err? {
        return Some(r.error);
      }
      r := newCodec(schemas.books);
      compileLog := compileLog + [BooksTpe];
      booksCodec := CompiledCodec(r);
      if r.Err? {
        return Some(r.error);
      }
      r := newCodec(schemas.account);
      compileLog := compileLog + [AccountsTpe];
      accountCodec := CompiledCodec(r);
      if r.Err? {
        return Some(r.error);
      }
      return None;
    }

    /**
     * `marshal`: render the message, pick the kind's codec and return what it returns. A kind
     * outside the three is an error with nil bytes. The chosen codec must have been compiled:
     * encoding with a nil codec fails in Go.
     */
    method Marshal(msg: AvroMsg, tpe: MsgType, names: EnumNames, encode: Encoder)
      returns (bb: Option<seq<byte>>, err: Option<string>)
      requires tpe == AccountsTpe ==> accountCodec.Some?
      requires tpe == BooksTpe ==> booksCodec.Some?
      requires tpe == TradesAndOrdersTpe ==> tradesAndOrdersCodec.Some?
      ensures !IsKnownMsgType(tpe) ==> bb == None && err == Some(UnsupportedMsgTypePrefix + "Unknown")
      ensures tpe == AccountsTpe ==> Encoded(bb, err) == encode(accountCodec.value, NativeOf(msg, names))
      ensures tpe == BooksTpe ==> Encoded(bb, err) == encode(booksCodec.value, NativeOf(msg, names))
      ensures tpe == TradesAndOrdersTpe ==>
        Encoded(bb, err) == encode(tradesAndOrdersCodec.value, NativeOf(msg, names))
    {
      var native := ToNativeMap(msg, names);
      var codec: Codec;
      if tpe == AccountsTpe {
        codec := accountCodec.value;
      } else if tpe == BooksTpe {
        codec := booksCodec.value;
      } else if tpe == TradesAndOrdersTpe {
        codec := tradesAndOrdersCodec.value;
      } else {
        return None, Some(UnsupportedMsgTypePrefix + MsgTypeString(tpe));
      }
      var out := encode(codec, native);
      bb, err := out.bytes, out.err;
    }
  }
}
