/** What the gateway keeps over every run of calls, whatever the venue answers. */
module Ledger {
  import opened Wrappers
  import opened Domain
  import opened PaperTrading
  import opened Broker
  import opened Reals

  // ----- hypotheses

  /** A quote priced as GetQuote prices every quote it hands out. */
  predicate Priced(q: Quote) { q.notional == q.quantity * q.price }

  predicate AllPriced(acts: seq<Action>) {
    forall i :: 0 <= i < |acts| && acts[i].PlaceOrder? ==> Priced(acts[i].quote)
  }

  /** A priced quote for a positive number of contracts. */
  predicate WellPriced(q: Quote) { q.quantity > 0.0 && Priced(q) }

  predicate Orderly(acts: seq<Action>) {
    forall i :: 0 <= i < |acts| && acts[i].PlaceOrder? ==> WellPriced(acts[i].quote)
  }

  predicate Sound(a: Account) {
    forall t :: t in a.positions ==> a.positions[t].quantity > 0.0
  }

  /** GetQuote prices every quote it hands out; its quantity is positive unless the venue promises no contracts. */
  lemma QuotesArePriced(request: QuoteRequest, venue: Option<VenueQuote>, now: int)
    requires QuoteFrom(request, venue, now).Some?
    ensures var q := QuoteFrom(request, venue, now).value;
            && Priced(q)
            && q.feeBps == request.feeBps
            && (q.side == Sell ==> q.quantity == request.quantity > 0.0)
            && (WellPriced(q) <==>
                  !(q.side == Buy && venue.value.amountOut.Some? && venue.value.amountOut.value <= 0))
  {
    var q := QuoteFrom(request, venue, now).value;
    if q.side == Buy && venue.value.amountOut.Some? {
      var out := venue.value.amountOut.value as real;
      assert q.quantity == out / AMOUNT_OUT_UNIT;
      assert q.quantity > 0.0 <==> out > 0.0;
    }
  }

  // ----- what a step is

  ghost predicate Fills(gate: Gate, w: World, a: Action) {
    && a.PlaceOrder?
    && Passes(gate, PlaceRequest(a.quote))
    && a.quote.expiresAt >= a.now
    && var reply := ReplyTo(w, a.quote.quoteId, a.reply, a.freshId).1;
       reply.Replied? && reply.orderId != "" && ParseStatus(reply.status) == Some(Filled)
  }

  /** Averaging a position to quantity zero: the one way a booking can raise. */
  ghost predicate DividesByZero(gate: Gate, w: World, a: Action) {
    && Fills(gate, w, a)
    && a.quote.side == Buy
    && a.quote.tokenId in w.account.positions
    && w.account.positions[a.quote.tokenId].quantity + a.quote.quantity == 0.0
  }

  /** Money that entered from outside the account, by a transfer the venue accepted. */
  ghost function Flow(gate: Gate, w: World, a: Action): real {
    if a.Transfer? && !Step(gate, w, a).raised then
      if a.direction == "INBOUND" then a.amount else -a.amount
    else 0.0
  }

  predicate BookedPartial(a: Account, q: Quote) { q.side == Sell && !BooksBasis(a, q) }

  predicate Closes(a: Account, q: Quote) {
    && q.side == Sell
    && BooksBasis(a, q)
    && a.positions[q.tokenId].quantity - q.quantity <= TOLERANCE
  }

  /** Basis of what a closing sale leaves of the position it deletes. */
  function Sliver(a: Account, q: Quote): real {
    if Closes(a, q) then
      (a.positions[q.tokenId].quantity - q.quantity) * a.positions[q.tokenId].averagePrice
    else 0.0
  }

  /** A partial sale: cash came in for a basis that is unknown, and the recorded position was dropped. */
  ghost function Gap(gate: Gate, w: World, a: Action): real {
    if Fills(gate, w, a) && BookedPartial(w.account, a.quote) then
      a.quote.Proceeds() - HeldCost(w.account.positions, a.quote.tokenId)
    else 0.0
  }

  /** The one kind of step whose cash movement no event carries. */
  ghost predicate UnloggedDebit(gate: Gate, w: World, a: Action) {
    DividesByZero(gate, w, a) && a.quote.Debit() != 0.0
  }

  /** A buy that raises half-way: its debit is gone, and so is the basis of the position it emptied. */
  ghost function Half(gate: Gate, w: World, a: Action): real {
    if DividesByZero(gate, w, a) then a.quote.Debit() + HeldCost(w.account.positions, a.quote.tokenId) else 0.0
  }

  ghost function Residue(gate: Gate, w: World, a: Action): real {
    if Fills(gate, w, a) then Sliver(w.account, a.quote) else 0.0
  }

  ghost function ClosingPrice(gate: Gate, w: World, a: Action): real {
    if Fills(gate, w, a) && Closes(w.account, a.quote) then
      Abs(w.account.positions[a.quote.tokenId].averagePrice)
    else 0.0
  }

  ghost function Flows(gate: Gate, w: World, acts: seq<Action>): real {
    if acts == [] then 0.0
    else
      var before := acts[..|acts| - 1];
      Flows(gate, w, before) + Flow(gate, Run(gate, w, before), acts[|acts| - 1])
  }

  ghost function Gaps(gate: Gate, w: World, acts: seq<Action>): real {
    if acts == [] then 0.0
    else
      var before := acts[..|acts| - 1];
      Gaps(gate, w, before) + Gap(gate, Run(gate, w, before), acts[|acts| - 1])
  }

  ghost function Halves(gate: Gate, w: World, acts: seq<Action>): real {
    if acts == [] then 0.0
    else
      var before := acts[..|acts| - 1];
      Halves(gate, w, before) + Half(gate, Run(gate, w, before), acts[|acts| - 1])
  }

  ghost function Residues(gate: Gate, w: World, acts: seq<Action>): real {
    if acts == [] then 0.0
    else
      var before := acts[..|acts| - 1];
      Residues(gate, w, before) + Residue(gate, Run(gate, w, before), acts[|acts| - 1])
  }

  ghost function ClosingPrices(gate: Gate, w: World, acts: seq<Action>): real {
    if acts == [] then 0.0
    else
      var before := acts[..|acts| - 1];
      ClosingPrices(gate, w, before) + ClosingPrice(gate, Run(gate, w, before), acts[|acts| - 1])
  }

  // ----- conservation

  /** Cash plus what the positions cost, less the profit already taken. */
  ghost function Capital(a: Account): real {
    a.cash + Total(Cost, a.positions) - a.realizedPnl
  }

  function HeldCost(m: map<string, Position>, k: string): real {
    if k in m then m[k].CostBasis() else 0.0
  }

  lemma ReplaceCost(m: map<string, Position>, k: string, p: Position)
    ensures Total(Cost, m[k := p]) == Total(Cost, m) + p.CostBasis() - HeldCost(m, k)
  {
    TotalUpdate(Cost, m, k, p);
    if k in m {
      TotalRemove(Cost, m, k);
    } else {
      TotalAbsent(Cost, m, k);
    }
  }

  lemma DropCost(m: map<string, Position>, k: string)
    ensures Total(Cost, m - {k}) == Total(Cost, m) - HeldCost(m, k)
  {
    if k in m {
      TotalRemove(Cost, m, k);
    } else {
      TotalAbsent(Cost, m, k);
    }
  }

  /** What a buy adds to the position's cost is what the contracts were bought for; it raises exactly
      when there is no quantity left to average over, and then nothing is left of the cost. */
  lemma BuyAddsItsNotional(a: Account, q: Quote, now: int)
    requires Priced(q) && q.side == Buy
    ensures var b := Fill(a, q, now);
            && (b.raised <==> q.tokenId in a.positions && a.positions[q.tokenId].quantity + q.quantity == 0.0)
            && HeldCost(b.account.positions, q.tokenId)
               == if b.raised then 0.0 else HeldCost(a.positions, q.tokenId) + q.notional
  {
    if q.tokenId in a.positions && !Fill(a, q, now).raised {
      var p := a.positions[q.tokenId];
      Cancel(p.CostBasis() + q.notional, p.quantity + q.quantity);
    }
  }

  lemma BuyConserves(a: Account, q: Quote, now: int)
    requires Priced(q) && q.side == Buy
    ensures var b := Fill(a, q, now);
            Capital(b.account) == Capital(a) - if b.raised then q.Debit() + HeldCost(a.positions, q.tokenId) else 0.0
  {
    var after := Fill(a, q, now).account;
    BuyAddsItsNotional(a, q, now);
    ReplaceCost(a.positions, q.tokenId, after.positions[q.tokenId]);
    assert after.positions == a.positions[q.tokenId := after.positions[q.tokenId]];
  }

  lemma ClosingSaleDropsAll(a: Account, q: Quote, now: int)
    requires Closes(a, q)
    ensures Total(Cost, Fill(a, q, now).account.positions)
         == Total(Cost, a.positions) - a.positions[q.tokenId].CostBasis()
  {
    DropCost(a.positions, q.tokenId);
  }

  lemma OpenSaleShrinks(a: Account, q: Quote, now: int)
    requires q.side == Sell && BooksBasis(a, q) && !Closes(a, q)
    ensures Total(Cost, Fill(a, q, now).account.positions)
         == Total(Cost, a.positions) - a.positions[q.tokenId].CostBasis()
            + (a.positions[q.tokenId].quantity - q.quantity) * a.positions[q.tokenId].averagePrice
  {
    var p := a.positions[q.tokenId];
    var smaller := p.(quantity := p.quantity - q.quantity, markPrice := q.price, markedAt := now);
    assert Fill(a, q, now).account.positions == a.positions[q.tokenId := smaller];
    ReplaceCost(a.positions, q.tokenId, smaller);
  }

  /** What a complete sale takes out of the total cost. */
  lemma SellTakesItsBasis(a: Account, q: Quote, now: int)
    requires q.side == Sell && BooksBasis(a, q)
    ensures Total(Cost, Fill(a, q, now).account.positions)
         == Total(Cost, a.positions) - a.positions[q.tokenId].averagePrice * q.quantity - Sliver(a, q)
  {
    var p := a.positions[q.tokenId];
    Distribute(p.quantity, q.quantity, p.averagePrice);
    if Closes(a, q) {
      ClosingSaleDropsAll(a, q, now);
    } else {
      OpenSaleShrinks(a, q, now);
    }
  }

  lemma Distribute(x: real, y: real, z: real)
    ensures (x - y) * z == x * z - z * y
  {
  }

  lemma SellConserves(a: Account, q: Quote, now: int)
    requires q.side == Sell && BooksBasis(a, q)
    ensures Capital(Fill(a, q, now).account) == Capital(a) - Sliver(a, q)
  {
    SellTakesItsBasis(a, q, now);
  }

  /** A sale without a usable basis: all its proceeds count, and what was recorded is gone. */
  lemma PartialSellGap(a: Account, q: Quote, now: int)
    requires BookedPartial(a, q)
    ensures Capital(Fill(a, q, now).account)
         == Capital(a) + q.Proceeds() - HeldCost(a.positions, q.tokenId)
  {
    DropCost(a.positions, q.tokenId);
  }

  lemma FillConserves(a: Account, q: Quote, now: int)
    requires Priced(q)
    ensures Capital(Fill(a, q, now).account)
         == Capital(a) - Sliver(a, q)
            + (if BookedPartial(a, q) then q.Proceeds() - HeldCost(a.positions, q.tokenId) else 0.0)
            - (if Fill(a, q, now).raised then q.Debit() + HeldCost(a.positions, q.tokenId) else 0.0)
  {
    if q.side == Buy {
      BuyConserves(a, q, now);
    } else if BooksBasis(a, q) {
      SellConserves(a, q, now);
    } else {
      PartialSellGap(a, q, now);
    }
  }

  lemma CapitalOfSameBalances(a: Account, b: Account)
    requires a.cash == b.cash && a.positions == b.positions && a.realizedPnl == b.realizedPnl
    ensures Capital(a) == Capital(b)
  {
  }

  /** A placement books its fill and nothing else; without a fill the balances stay. */
  lemma PlaceBooksItsFill(gate: Gate, w: World, a: Action)
    requires a.PlaceOrder?
    ensures var after := Step(gate, w, a).world.account;
            var booked := if Fills(gate, w, a) then Fill(w.account, a.quote, a.now).account else w.account;
            after.cash == booked.cash && after.positions == booked.positions && after.realizedPnl == booked.realizedPnl
    ensures DividesByZero(gate, w, a) <==> Fills(gate, w, a) && Fill(w.account, a.quote, a.now).raised
  {
  }

  lemma PlaceConserves(gate: Gate, w: World, a: Action)
    requires a.PlaceOrder? && Priced(a.quote)
    ensures Capital(Step(gate, w, a).world.account)
         == Capital(w.account) + Gap(gate, w, a) - Residue(gate, w, a) - Half(gate, w, a)
  {
    hide Step, Fill, Fills, DividesByZero;
    PlaceBooksItsFill(gate, w, a);
    FillConserves(w.account, a.quote, a.now);
    CapitalOfSameBalances(
      Step(gate, w, a).world.account,
      if Fills(gate, w, a) then Fill(w.account, a.quote, a.now).account else w.account);
  }

  lemma RedeemConserves(a: Account, tokenId: string, winning: bool)
    ensures Capital(RedeemPosition(a, tokenId, winning).account) == Capital(a)
  {
    DropCost(a.positions, tokenId);
  }

  lemma MarkConserves(w: World, tokenId: string, price: real, now: int)
    ensures Capital(StepMark(w, tokenId, price, now).world.account) == Capital(w.account)
  {
    if tokenId in w.account.positions && 0.0 <= price <= 1.0 {
      var p := w.account.positions[tokenId];
      var marked := p.(markPrice := price, markedAt := now);
      assert marked.CostBasis() == p.CostBasis();
      ReplaceCost(w.account.positions, tokenId, marked);
      assert StepMark(w, tokenId, price, now).world.account
          == w.account.(positions := w.account.positions[tokenId := marked]);
    }
  }

  lemma StepConserves(gate: Gate, w: World, a: Action)
    requires a.PlaceOrder? ==> Priced(a.quote)
    ensures Capital(Step(gate, w, a).world.account)
         == Capital(w.account) + Flow(gate, w, a) + Gap(gate, w, a) - Residue(gate, w, a) - Half(gate, w, a)
  {
    match a
    case PlaceOrder(_, _, _, _, _) =>
      PlaceConserves(gate, w, a);
    case Redeem(tokenId, winning, _, _) =>
      RedeemConserves(w.account, tokenId, winning);
    case Mark(tokenId, price, now) =>
      MarkConserves(w, tokenId, price, now);
    case _ =>
  }

  lemma SliverIsSmall(a: Account, q: Quote)
    requires Closes(a, q)
    ensures Abs(Sliver(a, q)) <= TOLERANCE * Abs(a.positions[q.tokenId].averagePrice)
  {
    ScaledBound(a.positions[q.tokenId].quantity - q.quantity, a.positions[q.tokenId].averagePrice);
  }

  lemma ResidueIsSmall(gate: Gate, w: World, a: Action)
    ensures Abs(Residue(gate, w, a)) <= TOLERANCE * ClosingPrice(gate, w, a)
  {
    if Fills(gate, w, a) && Closes(w.account, a.quote) {
      SliverIsSmall(w.account, a.quote);
    } else {
      assert Residue(gate, w, a) == 0.0 && ClosingPrice(gate, w, a) == 0.0;
    }
  }

  lemma ScaledBound(x: real, y: real)
    requires -TOLERANCE <= x <= TOLERANCE
    ensures Abs(x * y) <= TOLERANCE * Abs(y)
  {
    var m := Abs(y);
    NonNegative(TOLERANCE - x, m);
    NonNegative(TOLERANCE + x, m);
    Distribute(TOLERANCE, x, m);
    Distribute(TOLERANCE, -x, m);
  }

  /** No run makes or loses money except by the transfers, the partial sales, the fills that raise
      half-way and the closing slivers, and the slivers are small. */
  lemma {:induction false} RunConserves(gate: Gate, w: World, acts: seq<Action>)
    requires AllPriced(acts)
    ensures Capital(Run(gate, w, acts).account)
         == Capital(w.account) + Flows(gate, w, acts) + Gaps(gate, w, acts) - Residues(gate, w, acts)
            - Halves(gate, w, acts)
    ensures Abs(Residues(gate, w, acts)) <= TOLERANCE * ClosingPrices(gate, w, acts)
  {
    hide Step, Flow, Gap, Residue, Half, ClosingPrice, Capital;
    if acts != [] {
      var before, last := acts[..|acts| - 1], acts[|acts| - 1];
      RunConserves(gate, w, before);
      StepConserves(gate, Run(gate, w, before), last);
      ResidueIsSmall(gate, Run(gate, w, before), last);
    }
  }

  /** An account flat before and after took as profit exactly the cash that did not come from outside,
      from partial sales or out of fills that raised. */
  lemma FlatRunRealisesItsCash(gate: Gate, w: World, acts: seq<Action>)
    requires w.account.positions == map[] && Run(gate, w, acts).account.positions == map[] && AllPriced(acts)
    ensures var after := Run(gate, w, acts).account;
            Abs((after.realizedPnl - w.account.realizedPnl)
                - (after.cash - w.account.cash
                   - Flows(gate, w, acts) - Gaps(gate, w, acts) + Halves(gate, w, acts)))
            <= TOLERANCE * ClosingPrices(gate, w, acts)
  {
    hide *;
    RunConserves(gate, w, acts);
    FlatBalance(
      w.account, Run(gate, w, acts).account, Flows(gate, w, acts) + Gaps(gate, w, acts) - Halves(gate, w, acts),
      Residues(gate, w, acts));
  }

  lemma FlatBalance(before: Account, after: Account, flow: real, residue: real)
    requires before.positions == map[] && after.positions == map[]
    requires Capital(after) == Capital(before) + flow - residue
    ensures (after.realizedPnl - before.realizedPnl) - (after.cash - before.cash - flow) == residue
  {
    assert Total(Cost, before.positions) == 0.0 && Total(Cost, after.positions) == 0.0;
  }

  // ----- positive quantities

  lemma FillKeepsSound(a: Account, q: Quote, now: int)
    requires Sound(a) && q.quantity > 0.0
    ensures !Fill(a, q, now).raised && Sound(Fill(a, q, now).account)
  {
  }

  lemma StepKeepsSound(gate: Gate, w: World, a: Action)
    requires Sound(w.account) && (a.PlaceOrder? ==> a.quote.quantity > 0.0)
    ensures Sound(Step(gate, w, a).world.account) && !DividesByZero(gate, w, a)
  {
    if a.PlaceOrder? {
      hide Step, Fill, Fills, DividesByZero;
      PlaceBooksItsFill(gate, w, a);
      FillKeepsSound(w.account, a.quote, a.now);
    }
  }

  /** Fills of positive quantity keep every position positive, so none of them ever raises. */
  lemma {:induction false} RunKeepsSound(gate: Gate, w: World, acts: seq<Action>)
    requires Sound(w.account) && Orderly(acts)
    ensures Sound(Run(gate, w, acts).account) && Halves(gate, w, acts) == 0.0
  {
    hide Step, DividesByZero;
    if acts != [] {
      RunKeepsSound(gate, w, acts[..|acts| - 1]);
      StepKeepsSound(gate, Run(gate, w, acts[..|acts| - 1]), acts[|acts| - 1]);
    }
  }

  // ----- the event stream

  function Amount(delta: Option<real>): real { delta.GetOr(0.0) }

  function CashSum(log: seq<Event>): real {
    if log == [] then 0.0 else CashSum(log[..|log| - 1]) + Amount(log[|log| - 1].entry.cashDelta)
  }

  function RealizedSum(log: seq<Event>): real {
    if log == [] then 0.0 else RealizedSum(log[..|log| - 1]) + Amount(log[|log| - 1].entry.realizedDelta)
  }

  function ExternalSum(log: seq<Event>): real {
    if log == [] then 0.0 else ExternalSum(log[..|log| - 1]) + Amount(log[|log| - 1].entry.externalDelta)
  }

  predicate SinkOk(a: Action) {
    match a
    case PlaceOrder(_, _, _, _, sinkOk) => sinkOk
    case Redeem(_, _, _, sinkOk) => sinkOk
    case Transfer(_, _, _, sinkOk) => sinkOk
    case _ => true
  }

  predicate SinkNeverFails(acts: seq<Action>) {
    forall i :: 0 <= i < |acts| ==> SinkOk(acts[i])
  }

  /** The figures an event carries are the fold of the stream up to and including it. */
  predicate AfterFigures(log: seq<Event>, cash: real, realized: real, k: nat)
    requires k < |log|
  {
    && log[k].cashAfter == cash + CashSum(log[..k + 1])
    && log[k].realizedAfter == realized + RealizedSum(log[..k + 1])
  }

  /** The balances and the external flow are the folds of the stream, and so is every event's own figure. */
  ghost predicate FoldsTo(log: seq<Event>, start: Account, now: Account, flow: real) {
    && now.cash == start.cash + CashSum(log)
    && now.realizedPnl == start.realizedPnl + RealizedSum(log)
    && flow == ExternalSum(log)
    && AllAfterFigures(log, start.cash, start.realizedPnl)
  }

  /** A step moves the balances by what it logs, or logs nothing and moves nothing. */
  ghost predicate LogsItself(w: World, after: World, flow: real) {
    || (&& after.log == w.log
        && after.account.cash == w.account.cash
        && after.account.realizedPnl == w.account.realizedPnl
        && flow == 0.0)
    || (&& |after.log| == |w.log| + 1
        && after.log[..|w.log|] == w.log
        && var e := after.log[|w.log|];
           && after.account.cash == w.account.cash + Amount(e.entry.cashDelta) == e.cashAfter
           && after.account.realizedPnl == w.account.realizedPnl + Amount(e.entry.realizedDelta) == e.realizedAfter
           && e.equityAfter == e.cashAfter + Total(Value, after.account.positions)
           && flow == Amount(e.entry.externalDelta))
  }

  /** The entry of a booking says how it moved the balances; without one it moved nothing. */
  predicate SaysWhatItDoes(a: Account, b: Booking, flow: real) {
    match b.entry
    case None => b.account.cash == a.cash && b.account.realizedPnl == a.realizedPnl && flow == 0.0
    case Some(e) =>
      && b.account.cash == a.cash + Amount(e.cashDelta)
      && b.account.realizedPnl == a.realizedPnl + Amount(e.realizedDelta)
      && flow == Amount(e.externalDelta)
  }

  lemma CommitLogs(w: World, issued: World, b: Booking, flow: real)
    requires issued.log == w.log && SaysWhatItDoes(w.account, b, flow)
    ensures LogsItself(w, Commit(issued, b, true).world, flow)
  {
  }

  lemma FillSaysWhatItDoes(a: Account, q: Quote, now: int)
    ensures SaysWhatItDoes(a, Fill(a, q, now), 0.0) <==> !Fill(a, q, now).raised || q.Debit() == 0.0
  {
  }

  lemma SettleSaysWhatItDoes(a: Account, q: Quote, reply: PlaceReply, now: int)
    requires reply.Replied? && reply.orderId != "" && ParseStatus(reply.status) == Some(Filled) ==> !Fill(a, q, now).raised
    ensures SaysWhatItDoes(a, Settle(a, q, reply, now), 0.0)
  {
    hide Fill;
    FillSaysWhatItDoes(a, q, now);
  }

  /** A fill that raises half-way has taken its debit and logged nothing. */
  lemma HalfBookedIsUnlogged(gate: Gate, w: World, a: Action)
    requires DividesByZero(gate, w, a)
    ensures var after := Step(gate, w, a).world;
            && after.log == w.log
            && after.account.cash == w.account.cash - a.quote.Debit()
            && after.account.realizedPnl == w.account.realizedPnl
  {
  }

  lemma PlaceLogsWhatItDoes(gate: Gate, w: World, a: Action)
    requires a.PlaceOrder? && SinkOk(a)
    ensures LogsItself(w, Step(gate, w, a).world, 0.0) <==> !UnloggedDebit(gate, w, a)
  {
    if DividesByZero(gate, w, a) {
      HalfBookedIsUnlogged(gate, w, a);
    } else if Passes(gate, PlaceRequest(a.quote)) && a.quote.expiresAt >= a.now {
      var (paper, answer) := ReplyTo(w, a.quote.quoteId, a.reply, a.freshId);
      var issued := Issue(w, PlaceRequest(a.quote)).(paper := paper);
      SettleSaysWhatItDoes(w.account, a.quote, answer, a.now);
      CommitLogs(w, issued, Settle(w.account, a.quote, answer, a.now), 0.0);
    }
  }

  lemma RedeemLogsWhatItDoes(gate: Gate, w: World, a: Action)
    requires a.Redeem? && SinkOk(a)
    ensures LogsItself(w, Step(gate, w, a).world, 0.0)
  {
  }

  lemma TransferLogsWhatItDoes(gate: Gate, w: World, a: Action)
    requires a.Transfer? && SinkOk(a)
    ensures LogsItself(w, Step(gate, w, a).world, Flow(gate, w, a))
  {
  }

  lemma QuietStepsLogNothing(gate: Gate, w: World, a: Action)
    requires a.GetQuote? || a.CancelOrders? || a.Mark?
    ensures LogsItself(w, Step(gate, w, a).world, 0.0)
  {
  }

  /** With a working sink a call logs exactly what it moves, unless it raises with its debit taken. */
  lemma StepLogsWhatItDoes(gate: Gate, w: World, a: Action)
    requires SinkOk(a)
    ensures LogsItself(w, Step(gate, w, a).world, Flow(gate, w, a)) <==> !UnloggedDebit(gate, w, a)
  {
    hide Step, LogsItself;
    match a
    case PlaceOrder(_, _, _, _, _) =>
      PlaceLogsWhatItDoes(gate, w, a);
    case Redeem(_, _, _, _) =>
      RedeemLogsWhatItDoes(gate, w, a);
    case Transfer(_, _, _, _) =>
      TransferLogsWhatItDoes(gate, w, a);
    case _ =>
      QuietStepsLogNothing(gate, w, a);
  }

  ghost predicate AllAfterFigures(log: seq<Event>, cash: real, realized: real) {
    forall k :: 0 <= k < |log| ==> AfterFigures(log, cash, realized, k)
  }

  lemma AppendAfterFigures(log: seq<Event>, e: Event, cash: real, realized: real)
    requires AllAfterFigures(log, cash, realized)
    requires e.cashAfter == cash + CashSum(log) + Amount(e.entry.cashDelta)
    requires e.realizedAfter == realized + RealizedSum(log) + Amount(e.entry.realizedDelta)
    ensures AllAfterFigures(log + [e], cash, realized)
  {
    var longer := log + [e];
    forall k | 0 <= k < |longer| ensures AfterFigures(longer, cash, realized, k) {
      if k < |log| {
        assert AfterFigures(log, cash, realized, k);
        assert longer[..k + 1] == log[..k + 1];
      } else {
        assert longer[..k + 1] == longer && longer[..k] == log;
      }
    }
  }

  lemma FoldOneMore(start: Account, w: World, after: World, flows: real, flow: real)
    requires FoldsTo(w.log, start, w.account, flows) && LogsItself(w, after, flow)
    ensures FoldsTo(after.log, start, after.account, flows + flow)
  {
    if |after.log| > |w.log| {
      var e := after.log[|w.log|];
      assert after.log == w.log + [e] && after.log[..|after.log| - 1] == w.log;
      AppendAfterFigures(w.log, e, start.cash, start.realizedPnl);
    }
  }

  lemma NoFoldOverUnlogged(gate: Gate, start: Account, w: World, a: Action, flows: real, flow: real)
    requires FoldsTo(w.log, start, w.account, flows) && UnloggedDebit(gate, w, a)
    ensures !FoldsTo(Step(gate, w, a).world.log, start, Step(gate, w, a).world.account, flows + flow)
  {
    HalfBookedIsUnlogged(gate, w, a);
  }

  /** At every point of the run the stream so far folds to the account as it then is. */
  ghost predicate FoldsThroughout(gate: Gate, w: World, acts: seq<Action>) {
    && FoldsTo(Run(gate, w, acts).log, w.account, Run(gate, w, acts).account, Flows(gate, w, acts))
    && (acts != [] ==> FoldsThroughout(gate, w, acts[..|acts| - 1]))
  }

  /** No step of the run raises with its debit taken. */
  ghost predicate EveryDebitLogged(gate: Gate, w: World, acts: seq<Action>) {
    acts != [] ==>
      var before := acts[..|acts| - 1];
      EveryDebitLogged(gate, w, before) && !UnloggedDebit(gate, Run(gate, w, before), acts[|acts| - 1])
  }

  /** With a sink that never fails, folding the stream from the baseline gives the account at every
      point of a run exactly when no fill of it raises with its debit taken. */
  lemma {:induction false} LogIsFaithful(gate: Gate, w: World, acts: seq<Action>)
    requires w.log == [] && SinkNeverFails(acts)
    ensures FoldsThroughout(gate, w, acts) <==> EveryDebitLogged(gate, w, acts)
  {
    hide Step, FoldsTo, LogsItself, Flow, UnloggedDebit;
    if acts == [] {
      NothingFoldsToStart(w.account);
    } else {
      var before, last := acts[..|acts| - 1], acts[|acts| - 1];
      var mid := Run(gate, w, before);
      var flows, flow := Flows(gate, w, before), Flow(gate, mid, last);
      LogIsFaithful(gate, w, before);
      StepLogsWhatItDoes(gate, mid, last);
      if FoldsThroughout(gate, w, before) {
        if UnloggedDebit(gate, mid, last) {
          NoFoldOverUnlogged(gate, w.account, mid, last, flows, flow);
        } else {
          FoldOneMore(w.account, mid, Step(gate, mid, last).world, flows, flow);
        }
      }
    }
  }

  lemma NothingFoldsToStart(a: Account)
    ensures FoldsTo([], a, a, 0.0)
  {
  }

  /** Fills of positive quantity never raise, so on them the stream is faithful throughout. */
  lemma {:induction false} OrderlyRunsLogEverything(gate: Gate, w: World, acts: seq<Action>)
    requires Sound(w.account) && Orderly(acts)
    ensures EveryDebitLogged(gate, w, acts)
  {
    hide Step, DividesByZero;
    if acts != [] {
      var before, last := acts[..|acts| - 1], acts[|acts| - 1];
      OrderlyRunsLogEverything(gate, w, before);
      RunKeepsSound(gate, w, before);
      StepKeepsSound(gate, Run(gate, w, before), last);
    }
  }

  // ----- the average price

  /** Prices of the BUY fills of `token` since its position was last opened; an inherited
      position counts as one fill at its recorded average. */
  ghost function BuysSinceOpen(gate: Gate, w: World, acts: seq<Action>, token: string): seq<real> {
    if acts == [] then
      if token in w.account.positions then [w.account.positions[token].averagePrice] else []
    else
      var before, last := acts[..|acts| - 1], acts[|acts| - 1];
      var mid := Run(gate, w, before);
      if Fills(gate, mid, last) && last.quote.side == Buy && last.quote.tokenId == token then
        (if token in mid.account.positions then BuysSinceOpen(gate, w, before, token) else []) + [last.quote.price]
      else BuysSinceOpen(gate, w, before, token)
  }

  predicate Within(x: real, prices: seq<real>) {
    && (exists i :: 0 <= i < |prices| && prices[i] <= x)
    && (exists i :: 0 <= i < |prices| && x <= prices[i])
  }

  /** A weighted average lies between its two parts. */
  lemma AverageBetween(q1: real, p1: real, q2: real, p2: real)
    requires q1 > 0.0 && q2 > 0.0
    ensures var avg := (q1 * p1 + q2 * p2) / (q1 + q2);
            (p1 <= p2 ==> p1 <= avg <= p2) && (p2 <= p1 ==> p2 <= avg <= p1)
  {
    var total := q1 + q2;
    var avg := (q1 * p1 + q2 * p2) / total;
    Cancel(q1 * p1 + q2 * p2, total);
    assert total * avg == q1 * p1 + q2 * p2;
    assert total * (avg - p1) == q2 * (p2 - p1);
    assert total * (avg - p2) == q1 * (p1 - p2);
    SameSign(total, avg - p1, q2 * (p2 - p1));
    SameSign(total, avg - p2, q1 * (p1 - p2));
    if p1 <= p2 {
      assert q2 * (p2 - p1) >= 0.0 && q1 * (p1 - p2) <= 0.0;
    } else {
      assert q2 * (p2 - p1) <= 0.0 && q1 * (p1 - p2) >= 0.0;
    }
  }

  lemma SameSign(t: real, x: real, y: real)
    requires t > 0.0 && t * x == y
    ensures y >= 0.0 ==> x >= 0.0
    ensures y <= 0.0 ==> x <= 0.0
  {
  }

  /** Only a BUY fill moves an average; sells, marks and everything else leave it alone. */
  lemma OnlyBuysMoveAverages(gate: Gate, w: World, a: Action, token: string)
    requires token in Step(gate, w, a).world.account.positions
    requires !(Fills(gate, w, a) && a.quote.side == Buy && a.quote.tokenId == token)
    ensures token in w.account.positions
    ensures Step(gate, w, a).world.account.positions[token].averagePrice == w.account.positions[token].averagePrice
  {
  }

  predicate Between(x: real, y: real, z: real) { y <= x <= z || z <= x <= y }

  lemma BuyAverageBetween(a: Account, q: Quote, now: int)
    requires Sound(a) && WellPriced(q) && q.side == Buy && q.tokenId in a.positions
    ensures Between(Fill(a, q, now).account.positions[q.tokenId].averagePrice,
                    a.positions[q.tokenId].averagePrice, q.price)
  {
    var p := a.positions[q.tokenId];
    AverageBetween(p.quantity, p.averagePrice, q.quantity, q.price);
  }

  lemma WithinItself(x: real)
    ensures Within(x, [x])
  {
    assert [x][0] == x;
  }

  lemma WithinAppend(x: real, avg: real, price: real, earlier: seq<real>)
    requires Within(avg, earlier) && Between(x, avg, price)
    ensures Within(x, earlier + [price])
  {
    var prices := earlier + [price];
    var lo :| 0 <= lo < |earlier| && earlier[lo] <= avg;
    var hi :| 0 <= hi < |earlier| && avg <= earlier[hi];
    assert prices[lo] == earlier[lo] && prices[hi] == earlier[hi] && prices[|earlier|] == price;
    assert prices[if avg <= price then lo else |earlier|] <= x <= prices[if avg <= price then |earlier| else hi];
  }

  lemma WithinAfterBuy(a: Account, q: Quote, now: int, earlier: seq<real>)
    requires Sound(a) && WellPriced(q) && q.side == Buy
    requires q.tokenId in a.positions ==> Within(a.positions[q.tokenId].averagePrice, earlier)
    ensures Within(Fill(a, q, now).account.positions[q.tokenId].averagePrice,
                   (if q.tokenId in a.positions then earlier else []) + [q.price])
  {
    if q.tokenId in a.positions {
      BuyAverageBetween(a, q, now);
      WithinAppend(Fill(a, q, now).account.positions[q.tokenId].averagePrice,
        a.positions[q.tokenId].averagePrice, q.price, earlier);
    } else {
      assert [q.price][0] == q.price && [] + [q.price] == [q.price];
    }
  }

  lemma FilledBuyAccount(gate: Gate, w: World, a: Action)
    requires Sound(w.account) && Fills(gate, w, a) && WellPriced(a.quote)
    ensures Step(gate, w, a).world.account.positions == Fill(w.account, a.quote, a.now).account.positions
  {
    FillKeepsSound(w.account, a.quote, a.now);
  }

  /** Every position is positive and priced between the cheapest and the dearest buy since it was opened. */
  lemma {:induction false} AverageWithinFills(gate: Gate, w: World, acts: seq<Action>, token: string)
    requires Sound(w.account) && Orderly(acts)
    requires token in Run(gate, w, acts).account.positions
    ensures var p := Run(gate, w, acts).account.positions[token];
            p.quantity > 0.0 && Within(p.averagePrice, BuysSinceOpen(gate, w, acts, token))
  {
    hide Fill, Within;
    RunKeepsSound(gate, w, acts);
    if acts == [] {
      WithinItself(w.account.positions[token].averagePrice);
    } else {
      var before, last := acts[..|acts| - 1], acts[|acts| - 1];
      var mid := Run(gate, w, before);
      if token in mid.account.positions {
        AverageWithinFills(gate, w, before, token);
      }
      if Fills(gate, mid, last) && last.quote.side == Buy && last.quote.tokenId == token {
        RunKeepsSound(gate, w, before);
        FilledBuyAccount(gate, mid, last);
        WithinAfterBuy(mid.account, last.quote, last.now, BuysSinceOpen(gate, w, before, token));
      } else {
        OnlyBuysMoveAverages(gate, mid, last, token);
      }
    }
  }

  // ----- atomicity

  /** A write reaches the transport only past the guard. */
  lemma {:induction false} CallsArePermitted(gate: Gate, w: World, acts: seq<Action>)
    ensures var after := Run(gate, w, acts);
            && |w.calls| <= |after.calls| && after.calls[..|w.calls|] == w.calls
            && forall i :: |w.calls| <= i < |after.calls| ==> Passes(gate, after.calls[i])
  {
    if acts != [] {
      var before, last := acts[..|acts| - 1], acts[|acts| - 1];
      CallsArePermitted(gate, w, before);
      var mid, after := Run(gate, w, before), Run(gate, w, acts);
      StepIssues(gate, mid, last);
      assert after.calls[..|w.calls|] == mid.calls[..|w.calls|];
    }
  }

  lemma StepIssues(gate: Gate, w: World, a: Action)
    ensures var after := Step(gate, w, a).world;
            || after.calls == w.calls
            || (exists r :: after.calls == w.calls + [r] && Passes(gate, r))
  {
    match a
    case PlaceOrder(quote, _, _, _, _) =>
      assert Passes(gate, PlaceRequest(quote)) || Step(gate, w, a).world == w;
    case CancelOrders(orderIds, _) =>
      assert Passes(gate, CancelRequest(orderIds)) || Step(gate, w, a).world == w;
    case Redeem(tokenId, winning, _, _) =>
      assert Passes(gate, RedeemRequest(tokenId, winning)) || Step(gate, w, a).world == w;
    case Transfer(direction, amount, _, _) =>
      assert Passes(gate, TransferRequest(direction, amount)) || Step(gate, w, a).world == w;
    case _ =>
  }

  lemma OtherCallsRaiseCleanly(gate: Gate, w: World, a: Action)
    requires Step(gate, w, a).raised && !a.PlaceOrder?
    ensures Step(gate, w, a).world.account == w.account && Step(gate, w, a).world.log == w.log
    ensures !DividesByZero(gate, w, a)
  {
  }

  lemma RaisingPlacement(gate: Gate, w: World, a: Action)
    requires Step(gate, w, a).raised && a.PlaceOrder?
    ensures Step(gate, w, a).world.account
         == if DividesByZero(gate, w, a) then Fill(w.account, a.quote, a.now).account else w.account
    ensures DividesByZero(gate, w, a) ==> Fill(w.account, a.quote, a.now).raised
    ensures Step(gate, w, a).world.log == w.log
  {
  }

  /** A half-booked fill of nothing for nothing changes nothing; any other changes cash or quantity. */
  lemma HalfBookedChangesAccount(a: Account, q: Quote, now: int)
    requires Fill(a, q, now).raised
    ensures Fill(a, q, now).account == a <==> q.quantity == 0.0 && q.Debit() == 0.0
  {
    if q.quantity == 0.0 {
      assert Fill(a, q, now).account.positions == a.positions;
    } else {
      assert Fill(a, q, now).account.positions[q.tokenId].quantity == 0.0 != a.positions[q.tokenId].quantity;
    }
  }

  /** A call that raises leaves the account as it was, except a BUY fill that averages a position to zero. */
  lemma RaisingLeavesAccountAlone(gate: Gate, w: World, a: Action)
    requires Step(gate, w, a).raised
    ensures Step(gate, w, a).world.account == w.account
       <==> !(DividesByZero(gate, w, a) && (a.quote.quantity != 0.0 || a.quote.Debit() != 0.0))
    ensures Step(gate, w, a).world.log == w.log
  {
    if a.PlaceOrder? {
      hide Step, Fill;
      RaisingPlacement(gate, w, a);
      if DividesByZero(gate, w, a) {
        HalfBookedChangesAccount(w.account, a.quote, a.now);
      }
    } else {
      OtherCallsRaiseCleanly(gate, w, a);
    }
  }

  /** The failing case is real: the venue promises minus two contracts, the gateway hands out that
      quote, and filling it empties a position of two after the cash has moved. */
  lemma HalfBookedFillExists()
    ensures exists w: World, ask: Action, place: Action ::
              && ask.GetQuote? && place.PlaceOrder?
              && QuoteFrom(ask.request, ask.venue, ask.now) == Some(place.quote)
              && Step(Ungated, w, place).raised
              && Step(Ungated, w, place).world.account.cash == w.account.cash + 1.0
  {
    var w := World(Account(100.0, map["t" := Position(2.0, 0.5, 0.5, 0, 0)], [], 0.0, 0.0), None, [], []);
    var request := QuoteRequest("t", "BUY", 0.5, 2.0, 0, "MARKET");
    var ask := Action.GetQuote(request, Some(VenueQuote("q", None, Some(-2000000000000000000), Some(10))), 0);
    var quote := Quote("q", "t", Buy, Market, -2.0, 0.5, -1.0, 0, 10);
    var place := Action.PlaceOrder(quote, Replied("o", "FILLED"), "", 0, true);
    assert (-2000000000000000000 as real) / AMOUNT_OUT_UNIT == -2.0;
    assert QuoteFrom(ask.request, ask.venue, ask.now) == Some(quote);
    assert Upper("FILLED") == "FILLED";
    assert ParseStatus("FILLED") == Some(Filled);
    assert Step(Ungated, w, place).raised;
    assert Step(Ungated, w, place).world.account.cash == 101.0;
  }

  // ----- orders and round trips

  /** The later list extends the earlier one; an order in it may have gone from OPEN to CANCELED and nothing else. */
  predicate Continues(later: seq<Order>, earlier: seq<Order>) {
    && |earlier| <= |later|
    && forall i :: 0 <= i < |earlier| ==>
         later[i] == earlier[i] || (earlier[i].status == Open && later[i] == earlier[i].(status := Canceled))
  }

  /** No order is ever lost, reordered or reopened, and a filled one stays filled. */
  lemma {:induction false} OrdersOnlyAdvance(gate: Gate, w: World, acts: seq<Action>)
    ensures Continues(Run(gate, w, acts).account.orders, w.account.orders)
  {
    if acts != [] {
      var before, last := acts[..|acts| - 1], acts[|acts| - 1];
      OrdersOnlyAdvance(gate, w, before);
      StepContinues(gate, Run(gate, w, before), last);
    }
  }

  lemma StepContinues(gate: Gate, w: World, a: Action)
    ensures Continues(Step(gate, w, a).world.account.orders, w.account.orders)
  {
    if a.PlaceOrder? {
      assert Fill(w.account, a.quote, a.now).account.orders == w.account.orders;
    }
  }

  /** Bought into an empty position and held to settlement: cash and profit move by the same, exact amount. */
  lemma HeldToSettlement(a: Account, q: Quote, now: int, winning: bool)
    requires q.tokenId !in a.positions && Priced(q) && q.side == Buy
    ensures var after := RedeemPosition(Fill(a, q, now).account, q.tokenId, winning).account;
            && after.positions == a.positions
            && after.cash - a.cash == (if winning then q.quantity else 0.0) - q.notional - q.Fee()
            && after.realizedPnl - a.realizedPnl == after.cash - a.cash
  {
    var bought := Fill(a, q, now).account;
    assert bought.positions[q.tokenId].CostBasis() == q.notional;
    assert bought.positions - {q.tokenId} == a.positions;
  }

  /** Bought into an empty position and sold whole: the profit is proceeds less outlay. */
  lemma BoughtAndSold(a: Account, buy: Quote, sell: Quote, now: int, later: int)
    requires buy.tokenId !in a.positions && Priced(buy) && buy.side == Buy
    requires sell.tokenId == buy.tokenId && sell.side == Sell && sell.quantity == buy.quantity
    ensures var after := Fill(Fill(a, buy, now).account, sell, later).account;
            && after.positions == a.positions
            && after.cash - a.cash == (sell.notional - sell.Fee()) - (buy.notional + buy.Fee())
            && after.realizedPnl - a.realizedPnl == after.cash - a.cash
  {
    var bought := Fill(a, buy, now).account;
    assert bought.positions - {buy.tokenId} == a.positions;
    Distribute(0.0, -buy.quantity, buy.price);
  }
}
