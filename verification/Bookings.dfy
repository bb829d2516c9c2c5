/** What each gateway call does to the account and to the stream, in amounts and states a caller can read off. */
module Bookings {
  import opened Wrappers
  import opened Domain
  import opened Risk
  import opened MarketGuard
  import opened PaperTrading
  import opened Broker
  import opened Ledger

  // ----- quotes

  /** Which requests and replies are refused. */
  lemma QuoteIsRefusedWhen(gate: Gate, w: World, request: QuoteRequest, venue: Option<VenueQuote>, now: int)
    ensures Step(gate, w, Action.GetQuote(request, venue, now)).raised
       <==> || (request.side != "BUY" && request.side != "SELL")
            || (request.orderType != "MARKET" && request.orderType != "LIMIT")
            || request.quantity <= 0.0 || request.price <= 0.0 || request.price >= 1.0
            || venue == None || venue.value.quoteId == ""
    ensures QuoteFrom(request, venue, now) == None <==> Step(gate, w, Action.GetQuote(request, venue, now)).raised
    ensures Step(gate, w, Action.GetQuote(request, venue, now)).world.account == w.account
  {
  }

  /** What an accepted quote says: the venue's own figures where it gives them, the request's otherwise. */
  lemma QuoteSays(request: QuoteRequest, venue: VenueQuote, now: int)
    requires QuoteFrom(request, Some(venue), now).Some?
    ensures var q := QuoteFrom(request, Some(venue), now).value;
            && q.quoteId == venue.quoteId && q.tokenId == request.tokenId && q.feeBps == request.feeBps
            && (request.side == "BUY" ==> q.side == Buy) && (request.side == "SELL" ==> q.side == Sell)
            && (request.orderType == "LIMIT" ==> q.orderType == Limit)
            && (request.orderType == "MARKET" ==> q.orderType == Market)
            && (venue.price.Some? ==> q.price == venue.price.value)
            && (venue.price == None ==> q.price == request.price)
            && (request.side == "BUY" && venue.amountOut.Some? ==>
                  q.quantity * 1000000000000000000.0 == venue.amountOut.value as real)
            && (request.side == "SELL" || venue.amountOut == None ==> q.quantity == request.quantity)
            && q.notional == q.quantity * q.price
            && (venue.expiresAt.Some? ==> q.expiresAt == venue.expiresAt.value)
            && (venue.expiresAt == None ==> q.expiresAt == now + 30000)
  {
  }

  /** A simulated transport remembers what was asked for: money for a buy, contracts for a sale. */
  lemma QuoteIsRemembered(gate: Gate, w: World, request: QuoteRequest, venue: VenueQuote, now: int)
    requires w.paper.Some? && QuoteFrom(request, Some(venue), now).Some?
    ensures var after := Step(gate, w, Action.GetQuote(request, Some(venue), now)).world.paper;
            && after.Some? && after.value.orders == w.paper.value.orders
            && venue.quoteId in after.value.quoted
            && after.value.quoted[venue.quoteId]
               == (if request.side == "BUY" then Quoted(Buy, request.quantity * request.price, request.feeBps)
                   else Quoted(Sell, request.quantity, request.feeBps))
            && forall id :: id != venue.quoteId ==>
                 && (id in after.value.quoted <==> id in w.paper.value.quoted)
                 && (id in w.paper.value.quoted ==> after.value.quoted[id] == w.paper.value.quoted[id])
  {
  }

  // ----- placements

  /** What a status in the venue's reply means for the order. */
  predicate Means(status: string, s: OrderStatus) {
    || (Upper(status) == "OPEN" && s == OrderStatus.Open)
    || (Upper(status) == "FILLED" && s == Filled)
    || (Upper(status) == "CANCELED" && s == Canceled)
    || (Upper(status) == "REJECTED" && s == VenueRejected)
    || (Upper(status) == "FAILED" && s == VenueFailed)
  }

  function Live(quote: Quote, orderId: string, status: string, now: int, sinkOk: bool): Action {
    Action.PlaceOrder(quote, Replied(orderId, status), "", now, sinkOk)
  }

  /** A placement that may not start reaches nobody and changes nothing. */
  lemma RefusedPlacement(gate: Gate, w: World, a: Action)
    requires a.PlaceOrder? && (!Passes(gate, PlaceRequest(a.quote)) || a.quote.expiresAt < a.now)
    ensures Step(gate, w, a) == Result(w, true)
  {
  }

  /** A reply without an order id, or with a status that is none of the five, is an error and books nothing. */
  lemma UnusableReply(gate: Gate, w: World, quote: Quote, orderId: string, status: string, now: int, sinkOk: bool)
    requires w.paper == None && Passes(gate, PlaceRequest(quote)) && quote.expiresAt >= now
    requires orderId == "" || !(exists s :: Means(status, s))
    ensures var r := Step(gate, w, Live(quote, orderId, status, now, sinkOk));
            r.raised && r.world == w.(calls := w.calls + [PlaceRequest(quote)])
  {
    EveryStatusMeans(status);
  }

  lemma EveryStatusMeans(status: string)
    ensures ParseStatus(status).Some? ==> Means(status, ParseStatus(status).value)
  {
  }

  /** An order that is not filled is kept under the venue's id and status, with its fee, and moves no money. */
  lemma UnfilledReplyIsRecorded(
    gate: Gate, w: World, quote: Quote, orderId: string, status: string, s: OrderStatus, now: int, sinkOk: bool)
    requires w.paper == None && Passes(gate, PlaceRequest(quote)) && quote.expiresAt >= now
    requires orderId != "" && Means(status, s) && s != Filled
    ensures var r := Step(gate, w, Live(quote, orderId, status, now, sinkOk));
            && !r.raised
            && r.world == w.(calls := w.calls + [PlaceRequest(quote)], account := r.world.account)
            && r.world.account == w.account.(orders := w.account.orders
                 + [Order(orderId, quote, s, quote.notional * quote.feeBps as real / 10000.0, now)])
  {
  }

  /** A filled order is booked, and kept with its fee unless booking it raises. */
  lemma FilledReplyIsRecorded(gate: Gate, w: World, quote: Quote, orderId: string, status: string, now: int, sinkOk: bool)
    requires w.paper == None && Passes(gate, PlaceRequest(quote)) && quote.expiresAt >= now
    requires orderId != "" && Means(status, Filled)
    ensures var r := Step(gate, w, Live(quote, orderId, status, now, sinkOk));
            && Fills(gate, w, Live(quote, orderId, status, now, sinkOk))
            && r.world.calls == w.calls + [PlaceRequest(quote)]
            && r.world.account.orders == w.account.orders
                 + if r.raised then []
                   else [Order(orderId, quote, Filled, quote.notional * quote.feeBps as real / 10000.0, now)]
  {
    FillKeepsOrders(w.account, quote, now);
  }

  lemma FillKeepsOrders(a: Account, q: Quote, now: int)
    ensures Fill(a, q, now).account.orders == a.orders
  {
  }

  /** A buy costs its notional and a fee in basis points of it; the fee is all it realises, and the position
      holds the sum of both quantities at the cost of both. */
  lemma BuyFillMoves(gate: Gate, w: World, a: Action)
    requires a.PlaceOrder? && Fills(gate, w, a) && a.quote.side == Buy && !Step(gate, w, a).raised
    ensures var q, before, after := a.quote, w.account, Step(gate, w, a).world.account;
            && after.cash == before.cash - (q.notional + q.notional * q.feeBps as real / 10000.0)
            && after.realizedPnl == before.realizedPnl - q.notional * q.feeBps as real / 10000.0
            && after.transferredOut == before.transferredOut
            && q.tokenId in after.positions
            && after.positions - {q.tokenId} == before.positions - {q.tokenId}
            && var p := after.positions[q.tokenId];
               && p.markPrice == q.price && p.markedAt == a.now
               && (q.tokenId !in before.positions ==>
                     p.quantity == q.quantity && p.averagePrice == q.price && p.openedAt == a.now)
               && (q.tokenId in before.positions ==>
                     var was := before.positions[q.tokenId];
                     && p.openedAt == was.openedAt
                     && p.quantity == was.quantity + q.quantity
                     && p.quantity * p.averagePrice == was.quantity * was.averagePrice + q.notional)
  {
    hide Step, Fill, Fills, DividesByZero;
    PlaceBooksItsFill(gate, w, a);
    PlaceKeepsTheRest(gate, w, a);
    BuyBooks(w.account, a.quote, a.now);
  }

  lemma BuyBooks(a: Account, q: Quote, now: int)
    requires q.side == Buy && !Fill(a, q, now).raised
    ensures var after := Fill(a, q, now).account;
            && after.cash == a.cash - (q.notional + q.notional * q.feeBps as real / 10000.0)
            && after.realizedPnl == a.realizedPnl - q.notional * q.feeBps as real / 10000.0
            && q.tokenId in after.positions
            && after.positions - {q.tokenId} == a.positions - {q.tokenId}
            && var p := after.positions[q.tokenId];
               && p.markPrice == q.price && p.markedAt == now
               && (q.tokenId !in a.positions ==>
                     p.quantity == q.quantity && p.averagePrice == q.price && p.openedAt == now)
               && (q.tokenId in a.positions ==>
                     var was := a.positions[q.tokenId];
                     && p.openedAt == was.openedAt
                     && p.quantity == was.quantity + q.quantity
                     && p.quantity * p.averagePrice == was.quantity * was.averagePrice + q.notional)
  {
    if q.tokenId in a.positions {
      var was := a.positions[q.tokenId];
      Average(was.quantity + q.quantity, was.quantity * was.averagePrice + q.notional);
    }
  }

  lemma Average(quantity: real, cost: real)
    requires quantity != 0.0
    ensures quantity * (cost / quantity) == cost
  {
  }

  lemma PlaceKeepsTheRest(gate: Gate, w: World, a: Action)
    requires a.PlaceOrder?
    ensures Step(gate, w, a).world.account.transferredOut == w.account.transferredOut
    ensures Fills(gate, w, a) ==> (Step(gate, w, a).raised <==> DividesByZero(gate, w, a))
  {
  }

  /** A sale brings in its notional less the fee. Against a large enough position it realises what that is
      more than the average cost; any other sale realises nothing and the position is dropped. */
  lemma SellFillMoves(gate: Gate, w: World, a: Action)
    requires a.PlaceOrder? && Fills(gate, w, a) && a.quote.side == Sell
    ensures var q, before, after := a.quote, w.account, Step(gate, w, a).world.account;
            && !Step(gate, w, a).raised
            && after.cash == before.cash + (q.notional - q.notional * q.feeBps as real / 10000.0)
            && after.transferredOut == before.transferredOut
            && after.positions - {q.tokenId} == before.positions - {q.tokenId}
            && (q.tokenId in before.positions && q.quantity <= before.positions[q.tokenId].quantity + 0.000000001 ==>
                  var was := before.positions[q.tokenId];
                  && after.realizedPnl == before.realizedPnl
                       + (q.notional - q.notional * q.feeBps as real / 10000.0) - was.averagePrice * q.quantity
                  && (q.tokenId in after.positions <==> was.quantity - q.quantity > 0.000000001)
                  && (q.tokenId in after.positions ==>
                        after.positions[q.tokenId]
                        == Position(was.quantity - q.quantity, was.averagePrice, q.price, was.openedAt, a.now)))
            && (!(q.tokenId in before.positions && q.quantity <= before.positions[q.tokenId].quantity + 0.000000001) ==>
                  after.realizedPnl == before.realizedPnl && q.tokenId !in after.positions)
  {
    hide Step, Fill, Fills, DividesByZero;
    PlaceBooksItsFill(gate, w, a);
    PlaceKeepsTheRest(gate, w, a);
    SellBooks(w.account, a.quote, a.now);
  }

  lemma SellBooks(a: Account, q: Quote, now: int)
    requires q.side == Sell
    ensures var after := Fill(a, q, now).account;
            && !Fill(a, q, now).raised
            && after.cash == a.cash + (q.notional - q.notional * q.feeBps as real / 10000.0)
            && after.positions - {q.tokenId} == a.positions - {q.tokenId}
            && (q.tokenId in a.positions && q.quantity <= a.positions[q.tokenId].quantity + 0.000000001 ==>
                  var was := a.positions[q.tokenId];
                  && after.realizedPnl == a.realizedPnl
                       + (q.notional - q.notional * q.feeBps as real / 10000.0) - was.averagePrice * q.quantity
                  && (q.tokenId in after.positions <==> was.quantity - q.quantity > 0.000000001)
                  && (q.tokenId in after.positions ==>
                        after.positions[q.tokenId]
                        == Position(was.quantity - q.quantity, was.averagePrice, q.price, was.openedAt, now)))
            && (!(q.tokenId in a.positions && q.quantity <= a.positions[q.tokenId].quantity + 0.000000001) ==>
                  after.realizedPnl == a.realizedPnl && q.tokenId !in after.positions)
  {
  }

  /** The simulated transport fills a remembered buy exactly when the cash, to a billionth, covers the amount
      asked for and the fee on it; it fills everything else. */
  lemma PaperFillsWhenCovered(gate: Gate, w: World, a: Action)
    requires w.paper.Some? && a.PlaceOrder? && Passes(gate, PlaceRequest(a.quote)) && a.quote.expiresAt >= a.now
    ensures Fills(gate, w, a)
       <==> !(exists e :: a.quote.quoteId in w.paper.value.quoted && w.paper.value.quoted[a.quote.quoteId] == e
                && e.side == Buy
                && e.amount + e.amount * e.feeBps as real / 10000.0 > w.account.cash + 0.000000001)
    ensures Step(gate, w, a).world.paper.Some?
    ensures Step(gate, w, a).world.paper.value.quoted == w.paper.value.quoted - {a.quote.quoteId}
    ensures Step(gate, w, a).world.paper.value.orders
         == if Fills(gate, w, a) then w.paper.value.orders + {"paper-" + a.freshId} else w.paper.value.orders
    ensures !Fills(gate, w, a) ==> Step(gate, w, a).raised && Step(gate, w, a).world.account == w.account
  {
    assert Upper("FILLED") == "FILLED";
    assert ParseStatus("FILLED") == Some(Filled);
    if a.quote.quoteId in w.paper.value.quoted {
      var e := w.paper.value.quoted[a.quote.quoteId];
      assert e.Cost() == e.amount + e.amount * e.feeBps as real / 10000.0;
    }
  }

  lemma PaperOrderIsRecorded(gate: Gate, w: World, a: Action)
    requires w.paper.Some? && a.PlaceOrder? && Fills(gate, w, a)
    ensures var r := Step(gate, w, a);
            r.world.account.orders == w.account.orders
              + if r.raised then []
                else [Order("paper-" + a.freshId, a.quote, Filled, a.quote.notional * a.quote.feeBps as real / 10000.0, a.now)]
  {
    FillKeepsOrders(w.account, a.quote, a.now);
  }

  // ----- cancels

  /** Of the reported orders exactly the open ones are cancelled; a cancel moves no money. */
  lemma CancelMoves(gate: Gate, w: World, orderIds: seq<string>, canceled: set<string>)
    requires w.paper == None && Passes(gate, CancelRequest(orderIds))
    ensures var r := Step(gate, w, Action.CancelOrders(orderIds, Some(canceled)));
            && !r.raised
            && r.world.calls == w.calls + [CancelRequest(orderIds)]
            && r.world.account == w.account.(orders := r.world.account.orders)
            && |r.world.account.orders| == |w.account.orders|
            && forall i :: 0 <= i < |w.account.orders| ==>
                 var o := w.account.orders[i];
                 r.world.account.orders[i]
                 == if o.status == OrderStatus.Open && o.orderId in canceled
                    then Order(o.orderId, o.quote, Canceled, o.fee, o.createdAt) else o
  {
  }

  /** A simulated cancel reaches the requested orders that were filled here, and no others. */
  lemma PaperCancelMoves(gate: Gate, w: World, orderIds: seq<string>, canceled: Option<set<string>>)
    requires w.paper.Some? && Passes(gate, CancelRequest(orderIds))
    ensures var r := Step(gate, w, Action.CancelOrders(orderIds, canceled));
            && !r.raised
            && |r.world.account.orders| == |w.account.orders|
            && forall i :: 0 <= i < |w.account.orders| ==>
                 var o := w.account.orders[i];
                 r.world.account.orders[i]
                 == if o.status == OrderStatus.Open && o.orderId in orderIds && o.orderId in w.paper.value.orders
                    then Order(o.orderId, o.quote, Canceled, o.fee, o.createdAt) else o
  {
  }

  // ----- redemptions, transfers and marks

  /** A win pays one per contract held, a loss nothing; either way the whole cost is realised against it. */
  lemma RedemptionMoves(gate: Gate, w: World, tokenId: string, winning: bool, sinkOk: bool)
    requires Passes(gate, RedeemRequest(tokenId, winning))
    ensures var r := Step(gate, w, Action.Redeem(tokenId, winning, true, sinkOk));
            && !r.raised
            && r.world.calls == w.calls + [RedeemRequest(tokenId, winning)]
            && (tokenId !in w.account.positions ==> r.world.account == w.account)
            && (tokenId in w.account.positions ==>
                  var p := w.account.positions[tokenId];
                  r.world.account
                  == Account(w.account.cash + (if winning then p.quantity else 0.0),
                             w.account.positions - {tokenId}, w.account.orders,
                             w.account.realizedPnl + (if winning then p.quantity else 0.0) - p.quantity * p.averagePrice,
                             w.account.transferredOut))
  {
  }

  lemma TransferMoves(gate: Gate, w: World, amount: real, sinkOk: bool)
    requires amount > 0.0
    ensures Passes(gate, TransferRequest("INBOUND", amount)) ==>
              var r := Step(gate, w, Action.Transfer("INBOUND", amount, true, sinkOk));
              !r.raised && r.world.account == w.account.(cash := w.account.cash + amount)
    ensures Passes(gate, TransferRequest("OUTBOUND", amount)) ==>
              var r := Step(gate, w, Action.Transfer("OUTBOUND", amount, true, sinkOk));
              !r.raised && r.world.account
                           == w.account.(cash := w.account.cash - amount,
                                         transferredOut := w.account.transferredOut + amount)
  {
  }

  /** Which transfers are refused before they are issued. */
  lemma TransferIsRefusedWhen(gate: Gate, w: World, a: Action)
    requires a.Transfer?
    ensures Step(gate, w, a).world.calls == w.calls
       <==> || !Passes(gate, TransferRequest(a.direction, a.amount))
            || a.amount <= 0.0
            || (a.direction != "INBOUND" && a.direction != "OUTBOUND")
    ensures Step(gate, w, a).world.calls == w.calls ==> Step(gate, w, a) == Result(w, true)
  {
  }

  /** The venue's refusal of a redemption or a transfer leaves everything but the record of the call. */
  lemma VenueRefusalMovesNothing(gate: Gate, w: World, a: Action)
    requires w.paper == None && ((a.Redeem? && !a.accepted) || (a.Transfer? && !a.accepted))
    ensures Step(gate, w, a).raised
    ensures Step(gate, w, a).world == w.(calls := Step(gate, w, a).world.calls)
  {
  }

  /** A mark moves the equity by the price change on what is held, and no other figure. */
  lemma MarkMovesEquity(gate: Gate, w: World, tokenId: string, price: real, now: int)
    ensures var r := Step(gate, w, Action.Mark(tokenId, price, now));
            && (r.raised <==> price < 0.0 || price > 1.0)
            && (r.raised || tokenId !in w.account.positions ==> r.world == w)
            && (!r.raised && tokenId in w.account.positions ==>
                  var p := w.account.positions[tokenId];
                  && r.world == w.(account := r.world.account)
                  && r.world.account
                     == w.account.(positions := w.account.positions[tokenId :=
                          Position(p.quantity, p.averagePrice, price, p.openedAt, now)])
                  && Equity(r.world.account) - Equity(w.account) == p.quantity * (price - p.markPrice))
  {
    if 0.0 <= price <= 1.0 && tokenId in w.account.positions {
      var p := w.account.positions[tokenId];
      var marked := p.(markPrice := price, markedAt := now);
      TotalUpdate(Value, w.account.positions, tokenId, marked);
      TotalRemove(Value, w.account.positions, tokenId);
      assert p.quantity * price - p.quantity * p.markPrice == p.quantity * (price - p.markPrice);
    }
  }

  /** Nothing held, the equity is the cash; opening a position at its own price costs the fee and no more. */
  lemma OpeningCostsTheFee(a: Account, q: Quote, now: int)
    requires q.side == Buy && q.tokenId !in a.positions && Priced(q)
    ensures Equity(a.(positions := map[])) == a.cash
    ensures Equity(Fill(a, q, now).account) == Equity(a) - q.notional * q.feeBps as real / 10000.0
  {
    var after := Fill(a, q, now).account;
    var held := Position(q.quantity, q.price, q.price, now, now);
    assert after.positions == a.positions[q.tokenId := held];
    assert held.MarketValue() == q.notional;
    BuyBooks(a, q, now);
    hide Fill;
    TotalUpdate(Value, a.positions, q.tokenId, held);
    TotalAbsent(Value, a.positions, q.tokenId);
  }

  // ----- the guard

  function GuardTarget(gate: Gate): string
    requires gate.Gated?
  {
    "market:" + gate.platform
  }

  /** Every engine that covers the platform is asked, about the named operation, and says ALLOW. */
  ghost predicate EveryoneAllows(gate: Gate, operation: string, request: Request) {
    gate.Gated? ==>
      forall e :: e in gate.engines && (e.target == GuardTarget(gate) || gate.globMatch(GuardTarget(gate), e.target)) ==>
        var said := e.answer(operation, Context(GuardTarget(gate), gate.platform, None, request));
        said.Said? && Upper(said.outcome) == "ALLOW"
  }

  /** Under which name each write is put to the engines. */
  lemma WritesAreAskedAbout(gate: Gate, quote: Quote, ids: seq<string>, token: string, win: bool, way: string, amount: real)
    ensures Passes(gate, PlaceRequest(quote)) <==> EveryoneAllows(gate, "place_order", PlaceRequest(quote))
    ensures Passes(gate, CancelRequest(ids)) <==> EveryoneAllows(gate, "cancel_orders", CancelRequest(ids))
    ensures Passes(gate, RedeemRequest(token, win)) <==> EveryoneAllows(gate, "redeem", RedeemRequest(token, win))
    ensures Passes(gate, TransferRequest(way, amount)) <==> EveryoneAllows(gate, "transfer", TransferRequest(way, amount))
  {
    if gate.Gated? {
      AskedAbout(gate, "place_order", PlaceRequest(quote));
      AskedAbout(gate, "cancel_orders", CancelRequest(ids));
      AskedAbout(gate, "redeem", RedeemRequest(token, win));
      AskedAbout(gate, "transfer", TransferRequest(way, amount));
    }
  }

  lemma AskedAbout(gate: Gate, operation: string, request: Request)
    requires gate.Gated?
    ensures GuardVerdict(gate.engines, gate.globMatch, gate.platform, operation, request) == Allowed
       <==> EveryoneAllows(gate, operation, request)
  {
    GuardPassesOnlyOnUnanimousAllow(gate.engines, gate.globMatch, gate.platform, operation, request);
  }

  // ----- the event stream

  function QuantityOf(a: Account, token: string): real {
    if token in a.positions then a.positions[token].quantity else 0.0
  }

  /** What the event of a fill says about contracts and cost is what the position shows, except for the
      sliver a closing sale drops; a fill without a usable basis says so instead. */
  lemma FillEventSays(a: Account, q: Quote, now: int)
    requires Priced(q) && !Fill(a, q, now).raised
    ensures Fill(a, q, now).entry.Some?
    ensures var after, e := Fill(a, q, now).account, Fill(a, q, now).entry.value;
            && e.kind == (if q.side == Buy then BuyFill else SellFill) && e.tokenId == q.tokenId
            && e.quantityDelta == Some(if q.side == Buy then q.quantity else -q.quantity)
            && (e.complete <==> q.side == Buy || (q.tokenId in a.positions
                                                  && q.quantity <= a.positions[q.tokenId].quantity + 0.000000001))
            && (e.basisDelta.Some? <==> e.complete) && (e.realizedDelta.Some? <==> e.complete)
            && (e.complete ==>
                  && e.basisDelta.value == Total(Cost, after.positions) - Total(Cost, a.positions) + Sliver(a, q)
                  && (Sliver(a, q) == 0.0 && q.tokenId in after.positions ==>
                        e.quantityDelta.value == QuantityOf(after, q.tokenId) - QuantityOf(a, q.tokenId)))
  {
    if q.side == Buy {
      BuyAddsItsNotional(a, q, now);
      ReplaceCost(a.positions, q.tokenId, Fill(a, q, now).account.positions[q.tokenId]);
      assert Fill(a, q, now).account.positions
          == a.positions[q.tokenId := Fill(a, q, now).account.positions[q.tokenId]];
    } else if BooksBasis(a, q) {
      SellTakesItsBasis(a, q, now);
    }
  }

  lemma RedemptionEventSays(a: Account, tokenId: string, winning: bool)
    ensures var b := RedeemPosition(a, tokenId, winning);
            && b.entry.Some? && !b.raised && b.entry.value.tokenId == tokenId
            && (b.entry.value.complete <==> tokenId in a.positions)
            && b.entry.value.kind == (if tokenId in a.positions then Redeemed else RedeemUnmatched)
            && (tokenId in a.positions ==>
                  && b.entry.value.quantityDelta == Some(-QuantityOf(a, tokenId))
                  && b.entry.value.basisDelta == Some(Total(Cost, b.account.positions) - Total(Cost, a.positions)))
            && (tokenId !in a.positions ==>
                  b.entry.value.quantityDelta == None && b.entry.value.basisDelta == None
                  && b.entry.value.cashDelta == None && b.entry.value.realizedDelta == None
                  && b.entry.value.externalDelta == None)
  {
    DropCost(a.positions, tokenId);
  }

  lemma TransferEventSays(a: Account, amount: real)
    ensures MoveFunds(a, "INBOUND", amount).entry
         == Some(Entry(TransferIn, "", Some(amount), None, None, Some(0.0), Some(amount), true))
    ensures MoveFunds(a, "OUTBOUND", amount).entry
         == Some(Entry(TransferOut, "", Some(-amount), None, None, Some(0.0), Some(-amount), true))
  {
  }

  /** An event is stamped with the account as the call leaves it. */
  lemma EventIsStamped(gate: Gate, w: World, a: Action)
    requires |Step(gate, w, a).world.log| > |w.log|
    ensures var after := Step(gate, w, a).world;
            && |after.log| == |w.log| + 1 && after.log[..|w.log|] == w.log
            && after.log[|w.log|].cashAfter == after.account.cash
            && after.log[|w.log|].realizedAfter == after.account.realizedPnl
            && after.log[|w.log|].equityAfter == after.account.cash + Total(Value, after.account.positions)
            && SinkOk(a)
  {
  }
}
