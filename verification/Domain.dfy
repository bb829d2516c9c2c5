/** The account and what it holds (core/domain.py), and the requests a write is checked under. */
module Domain {
  datatype Position = Position(
    quantity: real, averagePrice: real, markPrice: real, openedAt: int, markedAt: int) {

    function MarketValue(): real { quantity * markPrice }

    function CostBasis(): real { quantity * averagePrice }
  }

  datatype Side = Buy | Sell

  datatype OrderType = Market | Limit

  datatype OrderStatus = Open | Filled | Canceled | VenueRejected | VenueFailed

  datatype Quote = Quote(
    quoteId: string, tokenId: string, side: Side, orderType: OrderType,
    quantity: real, price: real, notional: real, feeBps: int, expiresAt: int) {

    function Fee(): real { notional * feeBps as real / 10000.0 }

    /** What a buy takes out of the cash. */
    function Debit(): real { notional + Fee() }

    /** What a sale brings in. */
    function Proceeds(): real { notional - Fee() }
  }

  datatype Order = Order(orderId: string, quote: Quote, status: OrderStatus, fee: real, createdAt: int)

  datatype Account = Account(
    cash: real, positions: map<string, Position>, orders: seq<Order>,
    realizedPnl: real, transferredOut: real)

  /** What a business-risk rule is shown about one call to the market. */
  datatype Request =
    | PlaceRequest(quote: Quote)
    | CancelRequest(orderIds: seq<string>)
    | RedeemRequest(tokenId: string, winning: bool)
    | TransferRequest(direction: string, amount: real)
    | ReadRequest(operation: string)

  /** The two per-position amounts the account adds up. */
  datatype Measure = Cost | Value {
    function Of(p: Position): real {
      match this
      case Cost => p.CostBasis()
      case Value => p.MarketValue()
    }
  }

  ghost function Total(what: Measure, m: map<string, Position>): real {
    if m == map[] then 0.0
    else
      var k :| k in m;
      what.Of(m[k]) + Total(what, m - {k})
  }

  /** The sum does not depend on the order in which the positions are added. */
  lemma {:induction false} TotalRemove(what: Measure, m: map<string, Position>, k: string)
    requires k in m
    ensures Total(what, m) == what.Of(m[k]) + Total(what, m - {k})
    decreases |m|
  {
    var c :| c in m && Total(what, m) == what.Of(m[c]) + Total(what, m - {c});
    if c != k {
      TotalRemove(what, m - {c}, k);
      TotalRemove(what, m - {k}, c);
      assert m - {c} - {k} == m - {k} - {c};
    }
  }

  lemma TotalUpdate(what: Measure, m: map<string, Position>, k: string, p: Position)
    ensures Total(what, m[k := p]) == Total(what, m - {k}) + what.Of(p)
  {
    TotalRemove(what, m[k := p], k);
    assert m[k := p] - {k} == m - {k};
  }

  lemma TotalAbsent(what: Measure, m: map<string, Position>, k: string)
    requires k !in m
    ensures Total(what, m - {k}) == Total(what, m)
  {
    assert m - {k} == m;
  }

  ghost function Equity(a: Account): real { a.cash + Total(Value, a.positions) }

  /** The live account: every field is updated in place by the gateway. */
  class AccountState {
    var cash: real
    var positions: map<string, Position>
    var orders: seq<Order>
    var realizedPnl: real
    var transferredOut: real

    constructor (startingCash: real)
      ensures View() == Account(startingCash, map[], [], 0.0, 0.0)
    {
      cash, positions, orders, realizedPnl, transferredOut := startingCash, map[], [], 0.0, 0.0;
    }

    function View(): Account
      reads this
    {
      Account(cash, positions, orders, realizedPnl, transferredOut)
    }

    /** Marked value of everything held, added up one position at a time. */
    method Exposure() returns (sum: real)
      ensures sum == Total(Value, positions)
    {
      sum := 0.0;
      var left := positions;
      while left != map[]
        invariant sum + Total(Value, left) == Total(Value, positions)
        decreases |left|
      {
        var k :| k in left;
        TotalRemove(Value, left, k);
        sum := sum + left[k].MarketValue();
        left := left - {k};
      }
    }
  }
}
