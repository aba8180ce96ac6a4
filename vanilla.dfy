/**
 * The futures broker adapter: how orders, positions and balances reported by the
 * trading gateway become the framework's entities, and how the framework's limit
 * orders are submitted to and canceled at the gateway.
 *
 * The gateway's client library is an oracle: every query and every request is a
 * total function of its arguments that returns a value or raises. Requests that
 * change state at the gateway (open a position, cancel an order) are also recorded,
 * in the order they are sent, by the TradeClient object that sends them.
 */
module Vanilla {
  import opened Common
  import opened Text

  type Identifier = string

  /** The framework's canonical order status; Unprocessed is the status of an order that was just created. */
  datatype OrderStatus = Unprocessed | Open | Filled | Canceled

  /**
   * An order as the gateway reports it. The lookup by identifier reads the key `id`,
   * the parser reads the attribute `order_id`; the model keeps both.
   */
  datatype BrokerOrder = BrokerOrder(
    id: Identifier,
    orderId: Identifier,
    instrumentName: string,
    amount: real,
    direction: string,
    price: real,
    orderState: string)

  /**
   * A position as the gateway reports it. The parser reads the attribute `instrument_name`,
   * the lookup by asset reads the key `instrument_name`; the model takes them to be one field.
   */
  datatype BrokerPosition = BrokerPosition(instrumentName: string, size: real)

  datatype Account = Account(availableFunds: real, equity: real)

  /** The gateway's answer to an order request or a cancellation: it carries an order id. */
  datatype Ack = Ack(id: Identifier)

  /** A request that changes state at the gateway. A short request without a volume is the two-argument call. */
  datatype Request =
    | OpenLong(instrument: string, price: real, volume: int)
    | OpenShort(instrument: string, price: real, shortVolume: Option<int>)
    | CancelRequest(instrument: string, orderId: Option<Identifier>)

  /** What the gateway answers, per query scope or trade-list entry, and per request. */
  datatype Gateway = Gateway(
    account: string -> Result<Account>,
    positions: string -> Result<seq<BrokerPosition>>,
    openOrders: string -> Result<seq<BrokerOrder>>,
    closeOrders: string -> Result<seq<BrokerOrder>>,
    answer: Request -> Result<Ack>)

  /** The trade client: answers come from the gateway, state-changing requests are logged in `sent`. */
  class TradeClient {
    const gateway: Gateway
    var sent: seq<Request>

    constructor (gateway: Gateway)
      ensures this.gateway == gateway && sent == []
    {
      this.gateway := gateway;
      sent := [];
    }

    method Send(request: Request) returns (r: Result<Ack>)
      modifies this`sent
      ensures sent == old(sent) + [request]
      ensures r == gateway.answer(request)
    {
      sent := sent + [request];
      r := gateway.answer(request);
    }
  }

  /** The gateway payload an order keeps for traceability. */
  datatype Raw = RawOrder(order: BrokerOrder) | RawAck(ack: Ack)

  /**
   * The framework's order. The adapter only ever writes the broker identifier, the
   * status, the raw payload and the error; everything else is fixed at creation.
   */
  class Order {
    const strategy: string
    const symbol: string
    const assetType: string
    const exchange: string
    const quantity: real
    const side: string
    const orderType: string
    const limitPrice: real
    const orderClass: Option<string>
    var identifier: Option<Identifier>
    var status: OrderStatus
    var raw: Option<Raw>
    var error: Option<Error>

    constructor (strategy: string, symbol: string, assetType: string, exchange: string, quantity: real,
                 side: string, orderType: string, limitPrice: real, orderClass: Option<string>)
      ensures this.strategy == strategy && this.symbol == symbol && this.assetType == assetType
      ensures this.exchange == exchange && this.quantity == quantity && this.side == side
      ensures this.orderType == orderType && this.limitPrice == limitPrice && this.orderClass == orderClass
      ensures identifier == None && status == Unprocessed && raw == None && error == None
    {
      this.strategy := strategy;
      this.symbol := symbol;
      this.assetType := assetType;
      this.exchange := exchange;
      this.quantity := quantity;
      this.side := side;
      this.orderType := orderType;
      this.limitPrice := limitPrice;
      this.orderClass := orderClass;
      identifier := None;
      status := Unprocessed;
      raw := None;
      error := None;
    }
  }

  datatype Position = Position(strategy: string, symbol: string, quantity: real)

  /** (cash, positions value, total liquidation value) */
  datatype Balances = Balances(cash: real, positionsValue: real, totalLiquidation: real)

  /** The client arguments of a limit order: instrument reference, quantity, limit price. */
  datatype OrderArgs = OrderArgs(instrument: string, quantity: real, limitPrice: real)

  // ---------------------------------------------------------------- instrument references

  datatype Instrument = Instrument(exchange: string, symbol: string)

  /** The gateway's instrument reference "<exchange>,<symbol>". */
  function InstrumentName(exchange: string, symbol: string): string
  {
    exchange + [','] + symbol
  }

  /** Fields 0 and 1 of the reference split at commas; a reference without a comma has no field 1. */
  function ParseInstrument(name: string): (r: Result<Instrument>)
    ensures r.Ok? <==> ',' in name
    ensures r.Err? ==> r.error == IndexError
    ensures r.Ok? ==> ',' !in r.value.exchange && ',' !in r.value.symbol
  {
    var fields := Split(name, ',');
    SplitFieldCount(name, ',');
    if |fields| < 2 then Err(IndexError) else Ok(Instrument(fields[0], fields[1]))
  }

  /** Parsing a reference built from a comma-free exchange and symbol gives them back. */
  lemma InstrumentRoundTrip(exchange: string, symbol: string)
    requires ',' !in exchange && ',' !in symbol
    ensures ParseInstrument(InstrumentName(exchange, symbol)) == Ok(Instrument(exchange, symbol))
  {
    SplitAfterField(exchange, ',', symbol);
    SplitNoSeparator(symbol, ',');
  }

  lemma InstrumentRoundTripIfCommaFree(exchange: string, symbol: string)
    ensures ',' !in exchange && ',' !in symbol ==>
      ParseInstrument(InstrumentName(exchange, symbol)) == Ok(Instrument(exchange, symbol))
  {
    if ',' !in exchange && ',' !in symbol {
      InstrumentRoundTrip(exchange, symbol);
    }
  }

  /** A reference with more than two fields parses as its first two: the rest is silently dropped. */
  lemma ParseInstrumentDropsExtraFields(exchange: string, symbol: string, extra: string)
    requires ',' !in exchange && ',' !in symbol
    ensures ParseInstrument(InstrumentName(exchange, symbol) + [','] + extra) == Ok(Instrument(exchange, symbol))
  {
    assert InstrumentName(exchange, symbol) + [','] + extra == exchange + [','] + (symbol + [','] + extra);
    SplitAfterField(exchange, ',', symbol + [','] + extra);
    SplitAfterField(symbol, ',', extra);
  }

  /** What a successful parse read: the reference starts with "<exchange>,<symbol>", then ends or goes on after a comma. */
  lemma ParsedInstrumentIsLeadingFields(name: string)
    requires ParseInstrument(name).Ok?
    ensures var i := ParseInstrument(name).value;
      exists rest :: name == InstrumentName(i.exchange, i.symbol) + rest && (rest == [] || rest[0] == ',')
  {
    var fields := Split(name, ',');
    assert |fields| >= 2 && ParseInstrument(name).value == Instrument(fields[0], fields[1]);
    var rest := SplitLeadingFields(name, ',');
    assert name == InstrumentName(fields[0], fields[1]) + rest;
  }

  // ---------------------------------------------------------------- order status

  const OpenStates: seq<string> := ["SUBMITTING", "NOT_TRADED", "PART_TRADED"]
  const CanceledStates: seq<string> := ["CANCELLED", "REJECTED", "CANCEL_REJECTED"]

  /** The canonical status after the gateway reports `state` for an order whose status was `prior`. */
  function StatusAfter(state: string, prior: OrderStatus): (s: OrderStatus)
    ensures state in OpenStates ==> s == Open
    ensures state == "ALL_TRADED" ==> s == Filled
    ensures state in CanceledStates ==> s == Canceled
    ensures s != prior ==> state in OpenStates || state == "ALL_TRADED" || state in CanceledStates
  {
    if state in OpenStates then Open
    else if state == "ALL_TRADED" then Filled
    else if state in CanceledStates then Canceled
    else prior
  }

  // ---------------------------------------------------------------- order lists

  /** The closed orders of every trade-list entry, entry by entry; the first failing query's error otherwise. */
  function ClosedOrdersOf(g: Gateway, trades: seq<string>): Result<seq<BrokerOrder>>
  {
    if trades == [] then Ok([])
    else match g.closeOrders(trades[0])
      case Err(e) => Err(e)
      case Ok(closed) => Prepend(closed, ClosedOrdersOf(g, trades[1..]))
  }

  /** For every trade-list entry, its open orders then its closed orders; the first failing query's error otherwise. */
  function AllOrdersOf(g: Gateway, trades: seq<string>): Result<seq<BrokerOrder>>
  {
    if trades == [] then Ok([])
    else match g.openOrders(trades[0])
      case Err(e) => Err(e)
      case Ok(open) =>
        match g.closeOrders(trades[0])
        case Err(e) => Err(e)
        case Ok(closed) => Prepend(open + closed, AllOrdersOf(g, trades[1..]))
  }

  function Prepend(front: seq<BrokerOrder>, r: Result<seq<BrokerOrder>>): Result<seq<BrokerOrder>>
  {
    match r
    case Err(e) => Err(e)
    case Ok(back) => Ok(front + back)
  }

  lemma PrependNothing(r: Result<seq<BrokerOrder>>)
    ensures Prepend([], r) == r
  {
    if r.Ok? {
      assert [] + r.value == r.value;
    }
  }

  lemma PrependTwice(a: seq<BrokerOrder>, b: seq<BrokerOrder>, r: Result<seq<BrokerOrder>>)
    ensures Prepend(a, Prepend(b, r)) == Prepend(a + b, r)
  {
    if r.Ok? {
      assert a + (b + r.value) == (a + b) + r.value;
    }
  }

  /** Once every open-and-closed query succeeded, so does every closed query, and each closed order is among all orders. */
  lemma {:induction false} AllOrdersCoverClosedOrders(g: Gateway, trades: seq<string>)
    requires AllOrdersOf(g, trades).Ok?
    ensures ClosedOrdersOf(g, trades).Ok?
    ensures forall o :: o in ClosedOrdersOf(g, trades).value ==> o in AllOrdersOf(g, trades).value
  {
    if trades != [] {
      AllOrdersCoverClosedOrders(g, trades[1..]);
    }
  }

  /** The orders with identifier `id`, in list order (the source's list comprehension). */
  function Matching(orders: seq<BrokerOrder>, id: Identifier): (r: seq<BrokerOrder>)
    ensures |r| <= |orders|
  {
    if orders == [] then []
    else (if orders[0].id == id then [orders[0]] else []) + Matching(orders[1..], id)
  }

  /** The matches are exactly the orders that carry the identifier. */
  lemma {:induction false} MatchingMembers(orders: seq<BrokerOrder>, id: Identifier)
    ensures forall o :: o in Matching(orders, id) <==> o in orders && o.id == id
  {
    if orders != [] {
      MatchingMembers(orders[1..], id);
      assert orders == [orders[0]] + orders[1..];
    }
  }

  lemma {:induction false} MatchingAppend(a: seq<BrokerOrder>, b: seq<BrokerOrder>, id: Identifier)
    ensures Matching(a + b, id) == Matching(a, id) + Matching(b, id)
  {
    if a != [] {
      assert (a + b)[0] == a[0];
      assert (a + b)[1..] == a[1..] + b;
      MatchingAppend(a[1..], b, id);
      var head := if a[0].id == id then [a[0]] else [];
      calc {
        Matching(a + b, id);
        head + Matching(a[1..] + b, id);
        head + (Matching(a[1..], id) + Matching(b, id));
        (head + Matching(a[1..], id)) + Matching(b, id);
        Matching(a, id) + Matching(b, id);
      }
    } else {
      assert a + b == b;
    }
  }

  /** The head of the matches is the first order in the list that has the identifier. */
  lemma {:induction false} MatchingHeadIsFirst(orders: seq<BrokerOrder>, id: Identifier)
    requires |Matching(orders, id)| > 0
    ensures exists k :: (0 <= k < |orders| && orders[k] == Matching(orders, id)[0] &&
      forall j :: 0 <= j < k ==> orders[j].id != id)
  {
    if orders[0].id != id {
      MatchingHeadIsFirst(orders[1..], id);
      var k :| 0 <= k < |orders[1..]| && orders[1..][k] == Matching(orders[1..], id)[0] &&
        forall j :: 0 <= j < k ==> orders[1..][j].id != id;
      assert orders[k + 1] == Matching(orders, id)[0];
    }
  }

  /**
   * Looking up an identifier in all orders followed by the closed orders again finds what
   * the lookup in all orders alone finds: the closed orders are scanned twice, to no effect.
   */
  lemma LookupIgnoresRepeatedClosedOrders(all: seq<BrokerOrder>, closed: seq<BrokerOrder>, id: Identifier)
    requires forall o :: o in closed ==> o in all
    ensures |Matching(all + closed, id)| > 0 <==> |Matching(all, id)| > 0
    ensures |Matching(all, id)| > 0 ==> Matching(all + closed, id)[0] == Matching(all, id)[0]
  {
    MatchingAppend(all, closed, id);
    if |Matching(closed, id)| > 0 {
      MatchingMembers(closed, id);
      MatchingMembers(all, id);
      assert Matching(closed, id)[0] in Matching(all, id);
    }
  }

  /** Every closed order occurs at least twice in the list the lookup scans. */
  lemma ClosedOrdersScannedTwice(g: Gateway, trades: seq<string>)
    requires AllOrdersOf(g, trades).Ok?
    ensures ClosedOrdersOf(g, trades).Ok?
    ensures var all, closed := AllOrdersOf(g, trades).value, ClosedOrdersOf(g, trades).value;
      forall o :: o in closed ==> multiset(all + closed)[o] >= 2
  {
    AllOrdersCoverClosedOrders(g, trades);
  }

  // ---------------------------------------------------------------- order submission

  /** Python's int() on a number: truncation toward zero. */
  function TruncateToInt(x: real): (n: int)
    ensures 0.0 <= x ==> n as real <= x < n as real + 1.0
    ensures x < 0.0 ==> n as real - 1.0 < x <= n as real
  {
    if x >= 0.0 then x.Floor else -((-x).Floor)
  }

  /** Only simple (no order class) limit orders reach the gateway. */
  predicate Submittable(order: Order)
  {
    order.orderClass == None && order.orderType == "limit"
  }

  /** The request the source sends (vanilla.py:212-215): the short-side call leaves out the volume. */
  function OpenRequestAsWritten(side: string, args: OrderArgs): (request: Request)
    ensures request.OpenLong? <==> side == "buy"
    ensures !request.CancelRequest? && request.instrument == args.instrument && request.price == args.limitPrice
    ensures VolumeOf(request) == if side == "buy" then Some(TruncateToInt(args.quantity)) else None
  {
    if side == "buy" then OpenLong(args.instrument, args.limitPrice, TruncateToInt(args.quantity))
    else OpenShort(args.instrument, args.limitPrice, None)
  }

  /**
   * What `response.id` yields as the source is written: on the short side `response` is a
   * pair (the gateway's answer, the volume), which has no attribute `id`.
   */
  function AckAsWritten(side: string, reply: Result<Ack>): (r: Result<Ack>)
    ensures side == "buy" ==> r == reply
    ensures side != "buy" ==> r.Err?
    ensures reply.Err? ==> r == reply
    ensures side != "buy" && reply.Ok? ==> r == Err(AttributeError("id"))
  {
    if side == "buy" || reply.Err? then reply else Err(AttributeError("id"))
  }

  /** The volume a request carries, if it carries one. */
  function VolumeOf(request: Request): Option<int>
  {
    match request
    case OpenLong(_, _, volume) => Some(volume)
    case OpenShort(_, _, volume) => volume
    case CancelRequest(_, _) => None
  }

  /** As written, a sell order is sent without its volume, and even an accepted one ends in an error. */
  lemma AsWrittenSellIsNeverAcknowledged(args: OrderArgs, ack: Ack)
    ensures OpenRequestAsWritten("sell", args).OpenShort?
    ensures VolumeOf(OpenRequestAsWritten("sell", args)) == None
    ensures AckAsWritten("sell", Ok(ack)) == Err(AttributeError("id"))
  {
  }

  /** The evidently intended request: both sides pass instrument, price and the truncated quantity. */
  function OpenRequest(side: string, args: OrderArgs): (request: Request)
    ensures request.OpenLong? <==> side == "buy"
    ensures request.OpenShort? <==> side != "buy"
  {
    if side == "buy" then OpenLong(args.instrument, args.limitPrice, TruncateToInt(args.quantity))
    else OpenShort(args.instrument, args.limitPrice, Some(TruncateToInt(args.quantity)))
  }

  /** The corrected request carries the order's instrument, price and volume on either side. */
  lemma OpenRequestCarriesOrder(side: string, args: OrderArgs)
    ensures var request := OpenRequest(side, args);
      !request.CancelRequest? && request.instrument == args.instrument && request.price == args.limitPrice &&
      VolumeOf(request) == Some(TruncateToInt(args.quantity))
  {
  }

  // ---------------------------------------------------------------- cancellation

  /** A cancellation is confirmed when the call succeeded and answered with the order's own identifier. */
  predicate CancelConfirmed(reply: Result<Ack>, identifier: Option<Identifier>)
  {
    reply.Ok? && identifier == Some(reply.value.id)
  }

  // ---------------------------------------------------------------- the adapter

  class VanillaBroker {
    const client: TradeClient
    /** The "<exchange>,<symbol>" entries whose orders the adapter polls, in order. */
    const tradeList: seq<string>

    constructor (client: TradeClient, tradeList: seq<string>)
      ensures this.client == client && this.tradeList == tradeList
    {
      this.client := client;
      this.tradeList := tradeList;
    }

    /** Cash and total value from the account query; the positions value is always 0. */
    function GetBalancesAtBroker(quoteAsset: string): (r: Result<Balances>)
      ensures client.gateway.account("all").Err? ==> r == Err(client.gateway.account("all").error)
      ensures client.gateway.account("all").Ok? ==>
        var a := client.gateway.account("all").value;
        r.Ok? && r.value.cash == a.availableFunds && r.value.positionsValue == 0.0 &&
        r.value.totalLiquidation == a.equity
    {
      match client.gateway.account("all")
      case Err(e) => Err(e)
      case Ok(a) => Ok(Balances(a.availableFunds, 0.0, a.equity))
    }

    /** A gateway position as a framework position: its quantity and the symbol field of its reference. */
    function ParseBrokerPosition(position: BrokerPosition, strategy: string): (r: Result<Position>)
      ensures r.Ok? <==> ',' in position.instrumentName
      ensures r.Err? ==> r.error == IndexError
      ensures r.Ok? ==> (r.value.quantity == position.size && r.value.strategy == strategy &&
        r.value.symbol == ParseInstrument(position.instrumentName).value.symbol)
    {
      match ParseInstrument(position.instrumentName)
      case Err(e) => Err(e)
      case Ok(instrument) => Ok(Position(strategy, instrument.symbol, position.size))
    }

    /** All positions; a failing query reads as no positions at all. */
    function PullBrokerPositions(): (positions: seq<BrokerPosition>)
      ensures client.gateway.positions("all").Err? ==> positions == []
      ensures client.gateway.positions("all").Ok? ==> positions == client.gateway.positions("all").value
    {
      match client.gateway.positions("all")
      case Err(_) => []
      case Ok(positions) => positions
    }

    method ParseBrokerPositions(brokerPositions: seq<BrokerPosition>, strategy: string) returns (r: Result<seq<Position>>)
      ensures r.Ok? <==> forall i :: 0 <= i < |brokerPositions| ==> ',' in brokerPositions[i].instrumentName
      ensures r.Err? ==> r.error == IndexError
      ensures r.Ok? ==> (|r.value| == |brokerPositions| &&
        forall i :: 0 <= i < |brokerPositions| ==> ParseBrokerPosition(brokerPositions[i], strategy) == Ok(r.value[i]))
    {
      var result: seq<Position> := [];
      for i := 0 to |brokerPositions|
        invariant |result| == i
        invariant forall j :: 0 <= j < i ==> ParseBrokerPosition(brokerPositions[j], strategy) == Ok(result[j])
      {
        var position := ParseBrokerPosition(brokerPositions[i], strategy);
        if position.Err? {
          return Err(position.error);
        }
        result := result + [position.value];
      }
      return Ok(result);
    }

    method PullPositions(strategy: string) returns (r: Result<seq<Position>>)
      ensures client.gateway.positions("all").Err? ==> r == Ok([])
      ensures var ps := PullBrokerPositions();
        && (r.Ok? <==> forall i :: 0 <= i < |ps| ==> ',' in ps[i].instrumentName)
        && (r.Err? ==> r.error == IndexError)
      ensures var ps := PullBrokerPositions();
        r.Ok? ==> (|r.value| == |ps| &&
          forall i :: 0 <= i < |ps| ==> ParseBrokerPosition(ps[i], strategy) == Ok(r.value[i]))
    {
      var response := PullBrokerPositions();
      r := ParseBrokerPositions(response, strategy);
    }

    /** The first position whose reference contains `asset`, if any. */
    method PullBrokerPosition(asset: string) returns (r: Option<BrokerPosition>)
      ensures var ps := PullBrokerPositions();
        r.None? <==> forall i :: 0 <= i < |ps| ==> !Contains(ps[i].instrumentName, asset)
      ensures var ps := PullBrokerPositions();
        r.Some? ==> exists k :: (0 <= k < |ps| && ps[k] == r.value && Contains(ps[k].instrumentName, asset) &&
          forall j :: 0 <= j < k ==> !Contains(ps[j].instrumentName, asset))
    {
      var positions := PullBrokerPositions();
      for i := 0 to |positions|
        invariant forall j :: 0 <= j < i ==> !Contains(positions[j].instrumentName, asset)
      {
        if Contains(positions[i].instrumentName, asset) {
          return Some(positions[i]);
        }
      }
      return None;
    }

    /** The position of `asset`; when no position matches, reading its size fails. */
    method PullPosition(strategy: string, asset: string) returns (r: Result<Position>)
      ensures var ps := PullBrokerPositions();
        (forall i :: 0 <= i < |ps| ==> !Contains(ps[i].instrumentName, asset)) ==> r == Err(AttributeError("size"))
      ensures var ps := PullBrokerPositions();
        (exists i :: 0 <= i < |ps| && Contains(ps[i].instrumentName, asset)) ==>
        exists k :: (0 <= k < |ps| && Contains(ps[k].instrumentName, asset) &&
          (forall j :: 0 <= j < k ==> !Contains(ps[j].instrumentName, asset)) &&
          ParseBrokerPosition(ps[k], strategy) == r)
    {
      var response := PullBrokerPosition(asset);
      if response.None? {
        return Err(AttributeError("size"));
      }
      r := ParseBrokerPosition(response.value, strategy);
    }

    /** A gateway order as a framework limit order: instrument, quantity, side, price, identifier, status, payload. */
    method ParseBrokerOrder(response: BrokerOrder, strategyName: string) returns (r: Result<Order>)
      ensures r.Err? <==> ',' !in response.instrumentName
      ensures r.Err? ==> r.error == IndexError
      ensures r.Ok? ==> fresh(r.value)
      ensures r.Ok? ==>
        var o := r.value;
        && ParseInstrument(response.instrumentName) == Ok(Instrument(o.exchange, o.symbol))
        && o.assetType == "future" && o.strategy == strategyName && o.quantity == response.amount
        && o.side == response.direction && o.limitPrice == response.price
        && o.orderType == "limit" && o.orderClass == None
        && o.identifier == Some(response.orderId)
        && o.status == StatusAfter(response.orderState, Unprocessed)
        && o.raw == Some(RawOrder(response)) && o.error == None
    {
      var parsed := ParseInstrument(response.instrumentName);
      if parsed.Err? {
        return Err(parsed.error);
      }
      var instrument := parsed.value;
      var order := new Order(strategyName, instrument.symbol, "future", instrument.exchange, response.amount,
                             response.direction, "limit", response.price, None);
      order.identifier := Some(response.orderId);
      order.status := StatusAfter(response.orderState, order.status);
      order.raw := Some(RawOrder(response));
      r := Ok(order);
    }

    method PullBrokerClosedOrders() returns (r: Result<seq<BrokerOrder>>)
      ensures r == ClosedOrdersOf(client.gateway, tradeList)
    {
      var allClosed: seq<BrokerOrder> := [];
      assert tradeList[0..] == tradeList;
      PrependNothing(ClosedOrdersOf(client.gateway, tradeList));
      for i := 0 to |tradeList|
        invariant ClosedOrdersOf(client.gateway, tradeList) == Prepend(allClosed, ClosedOrdersOf(client.gateway, tradeList[i..]))
      {
        assert tradeList[i..][0] == tradeList[i] && tradeList[i..][1..] == tradeList[i + 1..];
        var orders := client.gateway.closeOrders(tradeList[i]);
        if orders.Err? {
          return Err(orders.error);
        }
        PrependTwice(allClosed, orders.value, ClosedOrdersOf(client.gateway, tradeList[i + 1..]));
        allClosed := allClosed + orders.value;
      }
      assert allClosed + [] == allClosed;
      return Ok(allClosed);
    }

    method PullBrokerAllOrders() returns (r: Result<seq<BrokerOrder>>)
      ensures r == AllOrdersOf(client.gateway, tradeList)
    {
      var allOrders: seq<BrokerOrder> := [];
      assert tradeList[0..] == tradeList;
      PrependNothing(AllOrdersOf(client.gateway, tradeList));
      for i := 0 to |tradeList|
        invariant AllOrdersOf(client.gateway, tradeList) == Prepend(allOrders, AllOrdersOf(client.gateway, tradeList[i..]))
      {
        assert tradeList[i..][0] == tradeList[i] && tradeList[i..][1..] == tradeList[i + 1..];
        var openOrders := client.gateway.openOrders(tradeList[i]);
        if openOrders.Err? {
          return Err(openOrders.error);
        }
        var closeOrders := client.gateway.closeOrders(tradeList[i]);
        if closeOrders.Err? {
          return Err(closeOrders.error);
        }
        PrependTwice(allOrders, openOrders.value + closeOrders.value, AllOrdersOf(client.gateway, tradeList[i + 1..]));
        assert allOrders + openOrders.value + closeOrders.value == allOrders + (openOrders.value + closeOrders.value);
        allOrders := allOrders + openOrders.value;
        allOrders := allOrders + closeOrders.value;
      }
      assert allOrders + [] == allOrders;
      return Ok(allOrders);
    }

    /** The first order with the identifier among all orders followed by the closed orders. */
    method PullBrokerOrder(identifier: Identifier) returns (r: Result<Option<BrokerOrder>>)
      ensures AllOrdersOf(client.gateway, tradeList).Err? ==> r == Err(AllOrdersOf(client.gateway, tradeList).error)
      ensures AllOrdersOf(client.gateway, tradeList).Ok? ==>
        var all := AllOrdersOf(client.gateway, tradeList).value;
        r.Ok? && (r.value.None? <==> forall i :: 0 <= i < |all| ==> all[i].id != identifier) &&
        (r.value.Some? ==> exists k :: (0 <= k < |all| && all[k] == r.value.value &&
          all[k].id == identifier && forall j :: 0 <= j < k ==> all[j].id != identifier))
    {
      var openOrders := PullBrokerAllOrders();
      if openOrders.Err? {
        return Err(openOrders.error);
      }
      var closedOrders := PullBrokerClosedOrders();
      if closedOrders.Err? {
        AllOrdersCoverClosedOrders(client.gateway, tradeList);
        assert false;
      }
      var allOrders := openOrders.value + closedOrders.value;
      var response := Matching(allOrders, identifier);
      AllOrdersCoverClosedOrders(client.gateway, tradeList);
      LookupIgnoresRepeatedClosedOrders(openOrders.value, closedOrders.value, identifier);
      MatchingMembers(openOrders.value, identifier);
      if |response| > 0 {
        MatchingHeadIsFirst(openOrders.value, identifier);
        r := Ok(Some(response[0]));
      } else {
        r := Ok(None);
      }
    }

    /** An order is tracked as itself alone: no derived orders are expanded. */
    function FlattenOrder(order: Order): (orders: seq<Order>)
      ensures |orders| == 1 && orders[0] == order
    {
      [order]
    }

    function CreateOrderArgs(order: Order): (r: Result<OrderArgs>)
      ensures r.Err? <==> order.orderType != "limit"
      ensures r.Err? ==> r.error == ValueError("Only support LIMIT order")
      ensures r.Ok? ==> r.value == OrderArgs(InstrumentName(order.exchange, order.symbol), order.quantity, order.limitPrice)
      ensures r.Ok? && ',' !in order.exchange && ',' !in order.symbol ==>
        ParseInstrument(r.value.instrument) == Ok(Instrument(order.exchange, order.symbol))
    {
      if order.orderType != "limit" then Err(ValueError("Only support LIMIT order"))
      else
        InstrumentRoundTripIfCommaFree(order.exchange, order.symbol);
        Ok(OrderArgs(InstrumentName(order.exchange, order.symbol), order.quantity, order.limitPrice))
    }

    /** Applies the gateway's answer to a submitted order: identifier, open status and payload, or the error. */
    method Record(order: Order, reply: Result<Ack>)
      modifies order`identifier, order`status, order`raw, order`error
      ensures reply.Ok? ==> (order.identifier == Some(reply.value.id) && order.status == Open &&
        order.raw == Some(RawAck(reply.value)) && order.error == old(order.error))
      ensures reply.Err? ==> (order.error == Some(reply.error) && order.identifier == old(order.identifier) &&
        order.status == old(order.status) && order.raw == old(order.raw))
    {
      match reply
      case Ok(ack) =>
        order.identifier := Some(ack.id);
        order.status := Open;
        order.raw := Some(RawAck(ack));
      case Err(e) =>
        order.error := Some(e);
    }

    /** Submission as the source is written, including the short-side defect. */
    method SubmitOrder(order: Order) returns (r: Option<Order>)
      modifies order`identifier, order`status, order`raw, order`error, client`sent
      ensures !Submittable(order) ==> r == None && client.sent == old(client.sent) && unchanged(order)
      ensures Submittable(order) ==>
        var request := OpenRequestAsWritten(order.side, CreateOrderArgs(order).value);
        var reply := AckAsWritten(order.side, client.gateway.answer(request));
        && r == Some(order) && client.sent == old(client.sent) + [request]
        && (reply.Ok? ==> (order.identifier == Some(reply.value.id) && order.status == Open &&
              order.raw == Some(RawAck(reply.value)) && order.error == old(order.error)))
        && (reply.Err? ==> (order.error == Some(reply.error) && order.identifier == old(order.identifier) &&
              order.status == old(order.status) && order.raw == old(order.raw)))
    {
      if order.orderClass != None {
        return None;
      }
      if order.orderType != "limit" {
        return None;
      }
      var args := CreateOrderArgs(order).value;
      var response := client.Send(OpenRequestAsWritten(order.side, args));
      Record(order, AckAsWritten(order.side, response));
      r := Some(order);
    }

    /** Submission as evidently intended: the short side passes the volume and its answer is used as is. */
    method SubmitOrderCorrected(order: Order) returns (r: Option<Order>)
      modifies order`identifier, order`status, order`raw, order`error, client`sent
      ensures !Submittable(order) ==> r == None && client.sent == old(client.sent) && unchanged(order)
      ensures Submittable(order) ==>
        var request := OpenRequest(order.side, CreateOrderArgs(order).value);
        var reply := client.gateway.answer(request);
        && r == Some(order) && client.sent == old(client.sent) + [request]
        && (reply.Ok? ==> (order.identifier == Some(reply.value.id) && order.status == Open &&
              order.raw == Some(RawAck(reply.value)) && order.error == old(order.error)))
        && (reply.Err? ==> (order.error == Some(reply.error) && order.identifier == old(order.identifier) &&
              order.status == old(order.status) && order.raw == old(order.raw)))
    {
      if !Submittable(order) {
        return None;
      }
      var args := CreateOrderArgs(order).value;
      var response := client.Send(OpenRequest(order.side, args));
      Record(order, response);
      r := Some(order);
    }

    /** Sends one cancellation; the order becomes canceled only when the answer carries its own identifier. */
    method CancelOrder(order: Order)
      modifies order`status, client`sent
      ensures var request := CancelRequest(InstrumentName(order.exchange, order.symbol), order.identifier);
        && client.sent == old(client.sent) + [request]
        && order.status == if CancelConfirmed(client.gateway.answer(request), order.identifier) then Canceled
                           else old(order.status)
    {
      var response := client.Send(CancelRequest(InstrumentName(order.exchange, order.symbol), order.identifier));
      if response.Ok? && order.identifier == Some(response.value.id) {
        order.status := Canceled;
      }
    }
  }
}
