/** The order workflow and the account it keeps (runtime/broker.py). */
module Broker {
  import opened Wrappers
  import opened Domain
  import opened Risk
  import opened MarketGuard
  import opened PaperTrading

  // ----- quotes

  datatype QuoteRequest = QuoteRequest(
    tokenId: string, side: string, price: real, quantity: real, feeBps: int, orderType: string) {

    predicate Acceptable() {
      side in {"BUY", "SELL"} && orderType in {"MARKET", "LIMIT"} && quantity > 0.0 && 0.0 < price < 1.0
    }

    function ParsedSide(): Side { if side == "BUY" then Buy else Sell }

    /** What the venue is asked for: money when buying, contracts when selling. */
    function Amount(): real { if side == "BUY" then quantity * price else quantity }
  }

  /** The venue's answer; an absent or empty field is None. */
  datatype VenueQuote = VenueQuote(
    quoteId: string, price: Option<real>, amountOut: Option<int>, expiresAt: Option<int>)

  const AMOUNT_OUT_UNIT: real := 1000000000000000000.0

  function QuoteFrom(request: QuoteRequest, reply: Option<VenueQuote>, now: int): Option<Quote> {
    if !request.Acceptable() || reply.None? || reply.value.quoteId == "" then None
    else
      var venue := reply.value;
      var side := request.ParsedSide();
      var price := venue.price.GetOr(request.price);
      var quantity :=
        if side == Buy && venue.amountOut.Some? then venue.amountOut.value as real / AMOUNT_OUT_UNIT
        else request.quantity;
      Some(PricedQuote(request, venue, quantity, price, now))
  }

  function PricedQuote(request: QuoteRequest, venue: VenueQuote, quantity: real, price: real, now: int): Quote {
    Quote(
      venue.quoteId, request.tokenId, request.ParsedSide(), if request.orderType == "LIMIT" then Limit else Market,
      quantity, price, quantity * price, request.feeBps, venue.expiresAt.GetOr(now + 30000))
  }

  // ----- the P&L event stream

  datatype EventKind = BuyFill | SellFill | Redeemed | RedeemUnmatched | TransferIn | TransferOut

  datatype Entry = Entry(
    kind: EventKind, tokenId: string, cashDelta: Option<real>, quantityDelta: Option<real>,
    basisDelta: Option<real>, realizedDelta: Option<real>, externalDelta: Option<real>, complete: bool)

  datatype Event = Event(entry: Entry, cashAfter: real, equityAfter: real, realizedAfter: real)

  ghost function Stamp(entry: Entry, a: Account): Event {
    Event(entry, a.cash, Equity(a), a.realizedPnl)
  }

  // ----- what one call does to the account

  datatype Booking = Booking(account: Account, entry: Option<Entry>, raised: bool)

  /** Book a filled order. Averaging a position down to quantity zero divides by zero, half-way through. */
  function Fill(a: Account, q: Quote, now: int): Booking {
    var fee := q.Fee();
    if q.side == Buy then
      var debit := q.notional + fee;
      var held := q.tokenId in a.positions;
      var quantity := if held then a.positions[q.tokenId].quantity + q.quantity else q.quantity;
      if held && quantity == 0.0 then
        Booking(
          a.(cash := a.cash - debit,
             positions := a.positions[q.tokenId := a.positions[q.tokenId].(quantity := quantity)]),
          None, true)
      else
        var position :=
          if held then
            var p := a.positions[q.tokenId];
            p.(quantity := quantity, averagePrice := (p.CostBasis() + q.notional) / quantity,
               markPrice := q.price, markedAt := now)
          else Position(q.quantity, q.price, q.price, now, now);
        Booking(
          a.(cash := a.cash - debit, positions := a.positions[q.tokenId := position],
             realizedPnl := a.realizedPnl - fee),
          Some(Entry(BuyFill, q.tokenId, Some(-debit), Some(q.quantity), Some(q.notional), Some(-fee), Some(0.0), true)),
          false)
    else
      var proceeds := q.notional - fee;
      if BooksBasis(a, q) then
        var p := a.positions[q.tokenId];
        var basis := p.averagePrice * q.quantity;
        var left := p.quantity - q.quantity;
        var positions :=
          if left <= TOLERANCE then a.positions - {q.tokenId}
          else a.positions[q.tokenId := p.(quantity := left, markPrice := q.price, markedAt := now)];
        Booking(
          a.(cash := a.cash + proceeds, positions := positions, realizedPnl := a.realizedPnl + (proceeds - basis)),
          Some(Entry(SellFill, q.tokenId, Some(proceeds), Some(-q.quantity), Some(-basis), Some(proceeds - basis),
                     Some(0.0), true)),
          false)
      else
        Booking(
          a.(cash := a.cash + proceeds, positions := a.positions - {q.tokenId}),
          Some(Entry(SellFill, q.tokenId, Some(proceeds), Some(-q.quantity), None, None, Some(0.0), false)),
          false)
  }

  /** A sale is booked as complete only against a recorded position that is large enough. */
  predicate BooksBasis(a: Account, q: Quote) {
    q.tokenId in a.positions && q.quantity <= a.positions[q.tokenId].quantity + TOLERANCE
  }

  function ParseStatus(status: string): Option<OrderStatus> {
    var s := Upper(status);
    if s == "OPEN" then Some(Open)
    else if s == "FILLED" then Some(Filled)
    else if s == "CANCELED" then Some(Canceled)
    else if s == "REJECTED" then Some(VenueRejected)
    else if s == "FAILED" then Some(VenueFailed)
    else None
  }

  /** Take in the venue's answer to an order. */
  function Settle(a: Account, q: Quote, reply: PlaceReply, now: int): Booking {
    if reply.TransportRaised? || reply.orderId == "" || ParseStatus(reply.status).None? then
      Booking(a, None, true)
    else
      var order := Order(reply.orderId, q, ParseStatus(reply.status).value, q.Fee(), now);
      var booked := if order.status == Filled then Fill(a, q, now) else Booking(a, None, false);
      if booked.raised then booked
      else booked.(account := booked.account.(orders := a.orders + [order]))
  }

  function CancelIn(orders: seq<Order>, canceled: set<string>): seq<Order> {
    seq(|orders|, i requires 0 <= i < |orders| =>
      if orders[i].orderId in canceled && orders[i].status == Open then orders[i].(status := Canceled)
      else orders[i])
  }

  function RedeemPosition(a: Account, tokenId: string, winning: bool): Booking {
    if tokenId !in a.positions then
      Booking(a, Some(Entry(RedeemUnmatched, tokenId, None, None, None, None, None, false)), false)
    else
      var p := a.positions[tokenId];
      var payout := if winning then p.quantity else 0.0;
      var realized := payout - p.CostBasis();
      Booking(
        a.(cash := a.cash + payout, realizedPnl := a.realizedPnl + realized, positions := a.positions - {tokenId}),
        Some(Entry(Redeemed, tokenId, Some(payout), Some(-p.quantity), Some(-p.CostBasis()), Some(realized),
                   Some(0.0), true)),
        false)
  }

  function MoveFunds(a: Account, direction: string, amount: real): Booking {
    var inbound := direction == "INBOUND";
    var signed := if inbound then amount else -amount;
    Booking(
      a.(cash := a.cash + signed, transferredOut := if inbound then a.transferredOut else a.transferredOut + amount),
      Some(Entry(if inbound then TransferIn else TransferOut, "", Some(signed), None, None, Some(0.0), Some(signed), true)),
      false)
  }

  // ----- one step of a run

  /** Who may refuse a write: nobody, or the guard of one platform. */
  datatype Gate =
    | Ungated
    | Gated(engines: seq<Engine>, globMatch: (string, string) -> bool, platform: string)

  function OperationOf(r: Request): string {
    match r
    case PlaceRequest(_) => "place_order"
    case CancelRequest(_) => "cancel_orders"
    case RedeemRequest(_, _) => "redeem"
    case TransferRequest(_, _) => "transfer"
    case ReadRequest(operation) => operation
  }

  predicate Passes(gate: Gate, r: Request) {
    gate.Gated? ==>
      GuardVerdict(gate.engines, gate.globMatch, gate.platform, OperationOf(r), r) == Allowed
  }

  /** `calls` are the writes handed to the transport; `paper` is present when the transport is simulated. */
  datatype World = World(account: Account, paper: Option<PaperBook>, log: seq<Event>, calls: seq<Request>)

  /** One call of the gateway, with everything the outside contributes to it. */
  datatype Action =
    | GetQuote(request: QuoteRequest, venue: Option<VenueQuote>, now: int)
    | PlaceOrder(quote: Quote, reply: PlaceReply, freshId: string, now: int, sinkOk: bool)
    | CancelOrders(orderIds: seq<string>, canceled: Option<set<string>>)
    | Redeem(tokenId: string, winning: bool, accepted: bool, sinkOk: bool)
    | Transfer(direction: string, amount: real, accepted: bool, sinkOk: bool)
    | Mark(tokenId: string, price: real, now: int)

  datatype Result = Result(world: World, raised: bool)

  /** Put a booking into the world, logging its entry when the sink takes it. */
  ghost function Commit(w: World, b: Booking, sinkOk: bool): Result {
    Result(w.(account := b.account, log := Logged(w.log, b, sinkOk)), b.raised)
  }

  ghost function Logged(log: seq<Event>, b: Booking, sinkOk: bool): seq<Event> {
    if b.entry.Some? && sinkOk then log + [Stamp(b.entry.value, b.account)] else log
  }

  function Issue(w: World, r: Request): World { w.(calls := w.calls + [r]) }

  /** The answer an order gets: the paper transport's when there is one, the venue's otherwise. */
  function ReplyTo(w: World, quoteId: string, reply: PlaceReply, freshId: string): (Option<PaperBook>, PlaceReply) {
    if w.paper.None? then (None, reply)
    else
      var (book, answer) := PaperPlace(w.paper.value, w.account.cash, quoteId, freshId);
      (Some(book), answer)
  }

  /** The orders the transport reports as cancelled; None when it raised. */
  function CanceledBy(w: World, orderIds: seq<string>, canceled: Option<set<string>>): Option<set<string>> {
    if w.paper.None? then canceled
    else Some(PaperCancel(w.paper.value, orderIds))
  }

  ghost function StepQuote(w: World, request: QuoteRequest, venue: Option<VenueQuote>, now: int): Result {
    var remembered :=
      if request.Acceptable() && venue.Some? && venue.value.quoteId != "" && w.paper.Some? then
        var book := w.paper.value;
        Some(book.(quoted :=
          book.quoted[venue.value.quoteId := Quoted(request.ParsedSide(), request.Amount(), request.feeBps)]))
      else w.paper;
    Result(w.(paper := remembered), QuoteFrom(request, venue, now).None?)
  }

  ghost function StepPlace(
    gate: Gate, w: World, quote: Quote, reply: PlaceReply, freshId: string, now: int, sinkOk: bool): Result
  {
    if !Passes(gate, PlaceRequest(quote)) || quote.expiresAt < now then Result(w, true)
    else
      var (paper, answer) := ReplyTo(w, quote.quoteId, reply, freshId);
      Commit(Issue(w, PlaceRequest(quote)).(paper := paper), Settle(w.account, quote, answer, now), sinkOk)
  }

  ghost function StepCancel(gate: Gate, w: World, orderIds: seq<string>, canceled: Option<set<string>>): Result {
    if !Passes(gate, CancelRequest(orderIds)) then Result(w, true)
    else
      var w' := Issue(w, CancelRequest(orderIds));
      var ids := CanceledBy(w, orderIds, canceled);
      if ids.None? then Result(w', true)
      else Result(w'.(account := w.account.(orders := CancelIn(w.account.orders, ids.value))), false)
  }

  ghost function StepRedeem(
    gate: Gate, w: World, tokenId: string, winning: bool, accepted: bool, sinkOk: bool): Result
  {
    if !Passes(gate, RedeemRequest(tokenId, winning)) then Result(w, true)
    else
      var w' := Issue(w, RedeemRequest(tokenId, winning));
      if w.paper.None? && !accepted then Result(w', true)
      else Commit(w', RedeemPosition(w.account, tokenId, winning), sinkOk)
  }

  ghost function StepTransfer(
    gate: Gate, w: World, direction: string, amount: real, accepted: bool, sinkOk: bool): Result
  {
    if !Passes(gate, TransferRequest(direction, amount)) || amount <= 0.0
       || direction !in {"INBOUND", "OUTBOUND"}
    then Result(w, true)
    else
      var w' := Issue(w, TransferRequest(direction, amount));
      if w.paper.None? && !accepted then Result(w', true)
      else Commit(w', MoveFunds(w.account, direction, amount), sinkOk)
  }

  ghost function StepMark(w: World, tokenId: string, price: real, now: int): Result {
    if !(0.0 <= price <= 1.0) then Result(w, true)
    else if tokenId !in w.account.positions then Result(w, false)
    else
      var p := w.account.positions[tokenId].(markPrice := price, markedAt := now);
      Result(w.(account := w.account.(positions := w.account.positions[tokenId := p])), false)
  }

  ghost function Step(gate: Gate, w: World, a: Action): Result {
    match a
    case GetQuote(request, venue, now) => StepQuote(w, request, venue, now)
    case PlaceOrder(quote, reply, freshId, now, sinkOk) => StepPlace(gate, w, quote, reply, freshId, now, sinkOk)
    case CancelOrders(orderIds, canceled) => StepCancel(gate, w, orderIds, canceled)
    case Redeem(tokenId, winning, accepted, sinkOk) => StepRedeem(gate, w, tokenId, winning, accepted, sinkOk)
    case Transfer(direction, amount, accepted, sinkOk) => StepTransfer(gate, w, direction, amount, accepted, sinkOk)
    case Mark(tokenId, price, now) => StepMark(w, tokenId, price, now)
  }

  ghost function Run(gate: Gate, w: World, acts: seq<Action>): World {
    if acts == [] then w
    else Step(gate, Run(gate, w, acts[..|acts| - 1]), acts[|acts| - 1]).world
  }

  // ----- the gateway object

  class ExecutionGateway {
    const state: AccountState
    const paper: PaperWriteTransport?
    var guard: GuardedMarketApi?
    var log: seq<Event>
    var calls: seq<Request>

    ghost predicate Valid() {
      paper != null ==> paper.state == state
    }

    constructor (state: AccountState, paper: PaperWriteTransport?)
      requires paper != null ==> paper.state == state
      ensures Valid() && this.state == state && this.paper == paper
      ensures guard == null && log == [] && calls == []
    {
      this.state, this.paper, guard, log, calls := state, paper, null, [], [];
    }

    /** What the guard does to a gateway it creates. */
    method PutBehind(guard: GuardedMarketApi)
      modifies this`guard
      ensures this.guard == guard
      ensures GateView() == Gated(guard.risk.engines, guard.risk.globMatch, guard.platform)
    {
      this.guard := guard;
    }

    ghost function View(): World
      reads this, state, paper
    {
      World(state.View(), if paper == null then None else Some(paper.View()), log, calls)
    }

    ghost function GateView(): Gate
      reads this`guard, guard, if guard == null then {} else {guard.risk}
    {
      if guard == null then Ungated else Gated(guard.risk.engines, guard.risk.globMatch, guard.platform)
    }

    method BusinessCheck(request: Request) returns (passed: bool)
      ensures passed <==> Passes(GateView(), request)
    {
      if guard == null {
        return true;
      }
      passed := guard.Check(OperationOf(request), request);
    }

    /** An accepted effect stays booked even when the event sink refuses it. */
    method RecordPnlEvent(entry: Entry, sinkOk: bool)
      modifies this`log
      ensures log == if sinkOk then old(log) + [Stamp(entry, state.View())] else old(log)
    {
      var exposure := state.Exposure();
      var event := Event(entry, state.cash, state.cash + exposure, state.realizedPnl);
      if sinkOk {
        log := log + [event];
      }
    }

    method GetQuote(request: QuoteRequest, venue: Option<VenueQuote>, now: int) returns (quote: Option<Quote>)
      requires Valid()
      modifies paper
      ensures quote == QuoteFrom(request, venue, now)
      ensures View() == StepQuote(old(View()), request, venue, now).world
    {
      if !request.Acceptable() {
        return None;
      }
      var amount := request.Amount();
      if venue.None? {
        return None;
      }
      if paper != null && venue.value.quoteId != "" {
        paper.RememberQuote(venue.value.quoteId, request.ParsedSide(), amount, request.feeBps);
      }
      if venue.value.quoteId == "" {
        return None;
      }
      var price := venue.value.price.GetOr(request.price);
      var quantity := request.quantity;
      if request.ParsedSide() == Buy && venue.value.amountOut.Some? {
        quantity := venue.value.amountOut.value as real / AMOUNT_OUT_UNIT;
      }
      quote := Some(PricedQuote(request, venue.value, quantity, price, now));
    }

    method PlaceOrder(quote: Quote, venueReply: PlaceReply, freshId: string, now: int, sinkOk: bool)
      returns (order: Option<Order>)
      requires Valid()
      modifies this`log, this`calls, state, paper
      ensures var r := StepPlace(old(GateView()), old(View()), quote, venueReply, freshId, now, sinkOk);
              View() == r.world && (order.None? <==> r.raised)
      ensures order.Some? ==> state.orders == old(state.orders) + [order.value]
    {
      var passed := BusinessCheck(PlaceRequest(quote));
      if !passed {
        return None;
      }
      if quote.expiresAt < now {
        return None;
      }
      calls := calls + [PlaceRequest(quote)];
      var reply := venueReply;
      if paper != null {
        reply := paper.PlaceOrder(quote.quoteId, freshId);
      }
      order := SettleOrder(quote, reply, now, sinkOk);
    }

    method SettleOrder(quote: Quote, reply: PlaceReply, now: int, sinkOk: bool) returns (order: Option<Order>)
      modifies this`log, state
      ensures var b := Settle(old(state.View()), quote, reply, now);
              && state.View() == b.account
              && (order.None? <==> b.raised)
              && log == Logged(old(log), b, sinkOk)
      ensures order.Some? ==> state.orders == old(state.orders) + [order.value]
    {
      if reply.TransportRaised? || reply.orderId == "" {
        return None;
      }
      var status := ParseStatus(reply.status);
      if status.None? {
        return None;
      }
      var placed := Order(reply.orderId, quote, status.value, quote.Fee(), now);
      if placed.status == Filled {
        var raised := FillOrder(placed, now, sinkOk);
        if raised {
          return None;
        }
      }
      state.orders := state.orders + [placed];
      order := Some(placed);
    }

    method FillOrder(order: Order, now: int, sinkOk: bool) returns (raised: bool)
      requires order.fee == order.quote.Fee()
      modifies this`log, state
      ensures var b := Fill(old(state.View()), order.quote, now);
              && state.View() == b.account
              && raised == b.raised
              && log == Logged(old(log), b, sinkOk)
    {
      var quote := order.quote;
      var token := quote.tokenId;
      var held := token in state.positions;
      if quote.side == Buy {
        var totalDebit := quote.notional + order.fee;
        state.cash := state.cash - totalDebit;
        if held {
          var existing := state.positions[token];
          var combinedCost := existing.CostBasis() + quote.notional;
          existing := existing.(quantity := existing.quantity + quote.quantity);
          state.positions := state.positions[token := existing];
          if existing.quantity == 0.0 {
            return true;  // ZeroDivisionError
          }
          existing := existing.(averagePrice := combinedCost / existing.quantity);
          existing := existing.(markPrice := quote.price, markedAt := now);
          state.positions := state.positions[token := existing];
        } else {
          state.positions := state.positions[token := Position(quote.quantity, quote.price, quote.price, now, now)];
        }
        state.realizedPnl := state.realizedPnl - order.fee;
        RecordPnlEvent(
          Entry(BuyFill, token, Some(-totalDebit), Some(quote.quantity), Some(quote.notional), Some(-order.fee),
                Some(0.0), true), sinkOk);
      } else {
        var proceeds := quote.notional - order.fee;
        state.cash := state.cash + proceeds;
        var basis, realized := None, None;
        if held && quote.quantity <= state.positions[token].quantity + TOLERANCE {
          var existing := state.positions[token];
          basis := Some(existing.averagePrice * quote.quantity);
          realized := Some(proceeds - basis.value);
          state.realizedPnl := state.realizedPnl + realized.value;
          existing := existing.(quantity := existing.quantity - quote.quantity, markPrice := quote.price, markedAt := now);
          if existing.quantity <= TOLERANCE {
            state.positions := state.positions - {token};
          } else {
            state.positions := state.positions[token := existing];
          }
        } else if held {
          state.positions := state.positions - {token};
        } else {
          assert state.positions - {token} == state.positions;
        }
        RecordPnlEvent(
          Entry(SellFill, token, Some(proceeds), Some(-quote.quantity),
                if basis.None? then None else Some(-basis.value), realized, Some(0.0), basis.Some?), sinkOk);
      }
      raised := false;
    }

    method CancelOrders(orderIds: seq<string>, venueCanceled: Option<set<string>>) returns (raised: bool)
      requires Valid()
      modifies this`calls, state`orders
      ensures var r := StepCancel(old(GateView()), old(View()), orderIds, venueCanceled);
              View() == r.world && raised == r.raised
    {
      var passed := BusinessCheck(CancelRequest(orderIds));
      if !passed {
        return true;
      }
      calls := calls + [CancelRequest(orderIds)];
      var canceled := venueCanceled;
      if paper != null {
        var local := paper.CancelOrders(orderIds);
        canceled := Some(local);
      }
      if canceled.None? {
        return true;
      }
      MarkCanceled(canceled.value);
      raised := false;
    }

    method MarkCanceled(canceled: set<string>)
      modifies state`orders
      ensures state.orders == CancelIn(old(state.orders), canceled)
    {
      ghost var before := state.orders;
      var i := 0;
      while i < |state.orders|
        invariant 0 <= i <= |state.orders| == |before|
        invariant state.orders[..i] == CancelIn(before, canceled)[..i]
        invariant state.orders[i..] == before[i..]
      {
        var order := state.orders[i];
        assert order == before[i..][0] == before[i];
        if order.orderId in canceled && order.status == Open {
          state.orders := state.orders[i := order.(status := Canceled)];
        }
        assert CancelIn(before, canceled)[..i + 1]
            == CancelIn(before, canceled)[..i] + [CancelIn(before, canceled)[i]];
        i := i + 1;
      }
      assert state.orders == CancelIn(before, canceled);
    }

    method Redeem(tokenId: string, winning: bool, accepted: bool, sinkOk: bool) returns (raised: bool)
      requires Valid()
      modifies this`log, this`calls, state
      ensures var r := StepRedeem(old(GateView()), old(View()), tokenId, winning, accepted, sinkOk);
              View() == r.world && raised == r.raised
    {
      var passed := BusinessCheck(RedeemRequest(tokenId, winning));
      if !passed {
        return true;
      }
      calls := calls + [RedeemRequest(tokenId, winning)];
      if paper == null && !accepted {
        return true;
      }
      BookRedemption(tokenId, winning, sinkOk);
      raised := false;
    }

    method BookRedemption(tokenId: string, winning: bool, sinkOk: bool)
      modifies this`log, state
      ensures var b := RedeemPosition(old(state.View()), tokenId, winning);
              && state.View() == b.account
              && log == Logged(old(log), b, sinkOk)
    {
      if tokenId !in state.positions {
        RecordPnlEvent(Entry(RedeemUnmatched, tokenId, None, None, None, None, None, false), sinkOk);
        return;
      }
      var position := state.positions[tokenId];
      var payout := if winning then position.quantity else 0.0;
      var basis := position.CostBasis();
      state.cash := state.cash + payout;
      var realized := payout - basis;
      state.realizedPnl := state.realizedPnl + realized;
      state.positions := state.positions - {tokenId};
      RecordPnlEvent(
        Entry(Redeemed, tokenId, Some(payout), Some(-position.quantity), Some(-basis), Some(realized), Some(0.0), true),
        sinkOk);
    }

    method Transfer(direction: string, amount: real, accepted: bool, sinkOk: bool) returns (raised: bool)
      requires Valid()
      modifies this`log, this`calls, state
      ensures var r := StepTransfer(old(GateView()), old(View()), direction, amount, accepted, sinkOk);
              View() == r.world && raised == r.raised
    {
      var passed := BusinessCheck(TransferRequest(direction, amount));
      if !passed || amount <= 0.0 || direction !in {"INBOUND", "OUTBOUND"} {
        return true;
      }
      calls := calls + [TransferRequest(direction, amount)];
      if paper == null && !accepted {
        return true;
      }
      BookTransfer(direction, amount, sinkOk);
      raised := false;
    }

    method BookTransfer(direction: string, amount: real, sinkOk: bool)
      modifies this`log, state
      ensures var b := MoveFunds(old(state.View()), direction, amount);
              && state.View() == b.account
              && log == Logged(old(log), b, sinkOk)
    {
      if direction == "INBOUND" {
        state.cash := state.cash + amount;
      } else {
        state.cash := state.cash - amount;
        state.transferredOut := state.transferredOut + amount;
      }
      var signed := if direction == "INBOUND" then amount else -amount;
      RecordPnlEvent(
        Entry(if direction == "INBOUND" then TransferIn else TransferOut, "", Some(signed), None, None, Some(0.0),
              Some(signed), true), sinkOk);
    }

    method Mark(tokenId: string, price: real, now: int) returns (raised: bool)
      modifies state`positions
      ensures var r := StepMark(old(View()), tokenId, price, now);
              View() == r.world && raised == r.raised
    {
      if !(0.0 <= price <= 1.0) {
        return true;
      }
      if tokenId in state.positions {
        state.positions := state.positions[tokenId := state.positions[tokenId].(markPrice := price, markedAt := now)];
      }
      raised := false;
    }
  }
}
