/** When a simulated account can be overdrawn, and when it cannot. */
module PaperLedger {
  import opened Wrappers
  import opened Domain
  import opened PaperTrading
  import opened Broker
  import opened Ledger
  import opened Reals

  function Max(x: real, y: real): real { if x < y then y else x }

  // ----- one call

  /** What filling a quote takes out of the cash; a sale that brings money in takes a negative amount. */
  function Outlay(q: Quote): real { if q.side == Buy then q.Debit() else -q.Proceeds() }

  /** The cash that is certainly there, tolerance aside, once placement under this id has passed its check. */
  function Assured(book: PaperBook, id: string): real {
    if id in book.quoted && book.quoted[id].side == Buy then Max(book.quoted[id].Cost(), 0.0) else 0.0
  }

  /** What each kind of call must satisfy so that it cannot overdraw a simulated account. */
  predicate Safe(gate: Gate, w: World, a: Action)
    requires w.paper.Some?
  {
    match a
    case PlaceOrder(quote, _, _, now, _) =>
      || !Passes(gate, PlaceRequest(quote))
      || quote.expiresAt < now
      || Outlay(quote) <= Assured(w.paper.value, quote.quoteId)
    case Redeem(tokenId, winning, _, _) =>
      || !Passes(gate, RedeemRequest(tokenId, winning))
      || !winning
      || tokenId !in w.account.positions
      || w.account.positions[tokenId].quantity >= 0.0
    case Transfer(direction, amount, _, _) =>
      || !Passes(gate, TransferRequest(direction, amount))
      || amount <= 0.0
      || direction != "OUTBOUND"
    case _ => true
  }

  function With(w: World, cash: real): World { w.(account := w.account.(cash := cash)) }

  /** Whatever cash a solvent account has, it is solvent after the call. */
  ghost predicate KeepsSolvent(gate: Gate, w: World, a: Action) {
    forall cash: real :: cash >= -TOLERANCE ==> Step(gate, With(w, cash), a).world.account.cash >= -TOLERANCE
  }

  lemma FillCash(a: Account, q: Quote, now: int)
    ensures Fill(a, q, now).account.cash == a.cash - Outlay(q)
  {
  }

  /** The paper transport fills exactly what its check covers. */
  lemma FilledMeansCovered(gate: Gate, w: World, a: Action)
    requires w.paper.Some? && a.PlaceOrder?
    ensures Fills(gate, w, a)
       <==> && Passes(gate, PlaceRequest(a.quote))
            && a.quote.expiresAt >= a.now
            && Covered(w.paper.value, w.account.cash, a.quote.quoteId)
  {
    assert Upper("FILLED") == "FILLED";
    assert ParseStatus("FILLED") == Some(Filled);
  }

  lemma PlaceMovesCash(gate: Gate, w: World, a: Action)
    requires w.paper.Some? && a.PlaceOrder?
    ensures Step(gate, w, a).world.account.cash == w.account.cash - if Fills(gate, w, a) then Outlay(a.quote) else 0.0
  {
    hide Step, Fill, Fills, DividesByZero;
    PlaceBooksItsFill(gate, w, a);
    FillCash(w.account, a.quote, a.now);
  }

  /** The check at placement agrees with the money a fill takes exactly when the quote takes no more than
      what is still remembered under its id, or takes nothing. */
  lemma CheckAgreesWithDebit(gate: Gate, w: World, a: Action)
    requires w.paper.Some? && a.PlaceOrder?
    ensures KeepsSolvent(gate, w, a) <==> Safe(gate, w, a)
  {
    hide Step, Fills;
    var book, id := w.paper.value, a.quote.quoteId;
    forall cash: real
      ensures Step(gate, With(w, cash), a).world.account.cash
           == cash - if Passes(gate, PlaceRequest(a.quote)) && a.quote.expiresAt >= a.now && Covered(book, cash, id)
                     then Outlay(a.quote) else 0.0
    {
      PlaceMovesCash(gate, With(w, cash), a);
      FilledMeansCovered(gate, With(w, cash), a);
    }
    var tight := Assured(book, id) - TOLERANCE;
    assert tight >= -TOLERANCE && Covered(book, tight, id);
    if KeepsSolvent(gate, w, a) {
      assert Step(gate, With(w, tight), a).world.account.cash >= -TOLERANCE;
    }
  }

  /** A winning redemption pays out what is held, which can be a debt. */
  lemma RedemptionAgreesWithHolding(gate: Gate, w: World, a: Action)
    requires w.paper.Some? && a.Redeem?
    ensures KeepsSolvent(gate, w, a) <==> Safe(gate, w, a)
  {
    if !Safe(gate, w, a) {
      assert Step(gate, With(w, -TOLERANCE), a).world.account.cash < -TOLERANCE;
    }
  }

  /** No simulated withdrawal is checked against the cash. */
  lemma WithdrawalIsNeverChecked(gate: Gate, w: World, a: Action)
    requires w.paper.Some? && a.Transfer?
    ensures KeepsSolvent(gate, w, a) <==> Safe(gate, w, a)
  {
    if !Safe(gate, w, a) {
      assert Step(gate, With(w, -TOLERANCE), a).world.account.cash < -TOLERANCE;
    }
  }

  lemma QuietStepsKeepCash(gate: Gate, w: World, a: Action)
    requires a.GetQuote? || a.CancelOrders? || a.Mark?
    ensures Step(gate, w, a).world.account.cash == w.account.cash
  {
  }

  /** For every kind of call: it keeps every solvent simulated account solvent exactly when it is safe. */
  lemma StepKeepsSolventExactly(gate: Gate, w: World, a: Action)
    requires w.paper.Some?
    ensures KeepsSolvent(gate, w, a) <==> Safe(gate, w, a)
  {
    match a
    case PlaceOrder(_, _, _, _, _) =>
      CheckAgreesWithDebit(gate, w, a);
    case Redeem(_, _, _, _) =>
      RedemptionAgreesWithHolding(gate, w, a);
    case Transfer(_, _, _, _) =>
      WithdrawalIsNeverChecked(gate, w, a);
    case _ =>
      hide Step;
      forall cash: real ensures Step(gate, With(w, cash), a).world.account.cash == cash {
        QuietStepsKeepCash(gate, With(w, cash), a);
      }
  }

  // ----- whole runs

  lemma StepKeepsPaper(gate: Gate, w: World, a: Action)
    ensures Step(gate, w, a).world.paper.Some? <==> w.paper.Some?
  {
  }

  lemma {:induction false} PaperStays(gate: Gate, w: World, acts: seq<Action>)
    ensures Run(gate, w, acts).paper.Some? <==> w.paper.Some?
  {
    hide Step;
    if acts != [] {
      PaperStays(gate, w, acts[..|acts| - 1]);
      StepKeepsPaper(gate, Run(gate, w, acts[..|acts| - 1]), acts[|acts| - 1]);
    }
  }

  /** Every call of the run is safe where it is made. */
  ghost predicate AllSafe(gate: Gate, w: World, acts: seq<Action>) {
    acts != [] ==>
      var before := acts[..|acts| - 1];
      && AllSafe(gate, w, before)
      && Run(gate, w, before).paper.Some?
      && Safe(gate, Run(gate, w, before), acts[|acts| - 1])
  }

  lemma {:induction false} SafeRunStaysSolvent(gate: Gate, w: World, acts: seq<Action>)
    requires w.account.cash >= -TOLERANCE && AllSafe(gate, w, acts)
    ensures Run(gate, w, acts).account.cash >= -TOLERANCE
  {
    hide Step, Safe;
    if acts != [] {
      var mid, last := Run(gate, w, acts[..|acts| - 1]), acts[|acts| - 1];
      SafeRunStaysSolvent(gate, w, acts[..|acts| - 1]);
      StepKeepsSolventExactly(gate, mid, last);
      assert With(mid, mid.account.cash) == mid;
      assert Step(gate, With(mid, mid.account.cash), last).world.account.cash >= -TOLERANCE;
    }
  }

  // ----- what the caller and the venue can do to keep a run safe

  predicate HandedOut(acts: seq<Action>, i: nat, q: Quote)
    requires i < |acts|
  {
    acts[i].GetQuote? && QuoteFrom(acts[i].request, acts[i].venue, acts[i].now) == Some(q)
  }

  /** The call hands out a quote under `id`, or places one. */
  predicate Uses(a: Action, id: string) {
    || (a.PlaceOrder? && a.quote.quoteId == id)
    || (a.GetQuote? && QuoteFrom(a.request, a.venue, a.now).Some?
        && QuoteFrom(a.request, a.venue, a.now).value.quoteId == id)
  }

  predicate UnusedSince(acts: seq<Action>, i: nat, id: string) {
    forall k :: i < k < |acts| ==> !Uses(acts[k], id)
  }

  /** The quote placed at `j` is the latest answer under its id and has not been placed before. */
  predicate Current(acts: seq<Action>, i: nat, j: nat)
    requires i < j < |acts| && acts[j].PlaceOrder?
  {
    HandedOut(acts, i, acts[j].quote) && UnusedSince(acts[..j], i, acts[j].quote.quoteId)
  }

  predicate PlacedWhileCurrent(acts: seq<Action>) {
    forall j :: 0 <= j < |acts| && acts[j].PlaceOrder? ==> exists i :: 0 <= i < j && Current(acts, i, j)
  }

  /** No short positions, no BUY dearer than it was asked for, no SELL that costs money. */
  predicate Fair(request: QuoteRequest, q: Quote) {
    if q.side == Buy then q.quantity >= 0.0 && q.notional <= request.Amount() && q.feeBps >= -10000
    else q.price >= 0.0 && q.feeBps <= 10000
  }

  ghost predicate FairQuotes(acts: seq<Action>) {
    forall i, q :: 0 <= i < |acts| && HandedOut(acts, i, q) ==> Fair(acts[i].request, q)
  }

  predicate NothingWithdrawn(acts: seq<Action>) {
    forall i :: 0 <= i < |acts| && acts[i].Transfer? ==> acts[i].direction != "OUTBOUND"
  }

  ghost predicate Disciplined(acts: seq<Action>) {
    PlacedWhileCurrent(acts) && FairQuotes(acts) && NothingWithdrawn(acts)
  }

  predicate NoShorts(a: Account) {
    forall t :: t in a.positions ==> a.positions[t].quantity >= 0.0
  }

  lemma DisciplinedPrefix(acts: seq<Action>, n: nat)
    requires Disciplined(acts) && n <= |acts|
    ensures Disciplined(acts[..n])
  {
    var pre := acts[..n];
    assert forall i, q :: 0 <= i < n ==> (HandedOut(pre, i, q) <==> HandedOut(acts, i, q));
    forall j | 0 <= j < n && pre[j].PlaceOrder?
      ensures exists i :: 0 <= i < j && Current(pre, i, j)
    {
      var i :| 0 <= i < j && Current(acts, i, j);
      assert pre[..j] == acts[..j];
      assert Current(pre, i, j);
    }
  }

  predicate Remembers(book: PaperBook, id: string, r: QuoteRequest) {
    id in book.quoted && book.quoted[id] == Quoted(r.ParsedSide(), r.Amount(), r.feeBps)
  }

  /** A call that does not use an id leaves what is remembered under it alone. */
  lemma StillRemembered(gate: Gate, w: World, a: Action, id: string, r: QuoteRequest)
    requires w.paper.Some? && Remembers(w.paper.value, id, r) && !Uses(a, id)
    ensures Step(gate, w, a).world.paper.Some?
    ensures Remembers(Step(gate, w, a).world.paper.value, id, r)
  {
  }

  lemma HandingOutIsRemembered(gate: Gate, w: World, a: Action, q: Quote)
    requires w.paper.Some? && a.GetQuote? && QuoteFrom(a.request, a.venue, a.now) == Some(q)
    ensures Step(gate, w, a).world.paper.Some?
    ensures Remembers(Step(gate, w, a).world.paper.value, q.quoteId, a.request)
  {
  }

  /** A quote whose id has not been used since it was handed out is remembered with its own request. */
  lemma {:induction false} QuoteStaysRemembered(gate: Gate, w: World, acts: seq<Action>, i: nat, q: Quote)
    requires w.paper.Some? && i < |acts| && HandedOut(acts, i, q) && UnusedSince(acts, i, q.quoteId)
    ensures Run(gate, w, acts).paper.Some?
    ensures Remembers(Run(gate, w, acts).paper.value, q.quoteId, acts[i].request)
  {
    hide Step, QuoteFrom, Remembers;
    var n := |acts| - 1;
    var before := acts[..n];
    PaperStays(gate, w, before);
    if i < n {
      assert UnusedSince(before, i, q.quoteId);
      QuoteStaysRemembered(gate, w, before, i, q);
      StillRemembered(gate, Run(gate, w, before), acts[n], q.quoteId, acts[i].request);
    } else {
      HandingOutIsRemembered(gate, Run(gate, w, before), acts[n], q);
    }
  }

  /** A BUY quote no dearer than its request costs no more than the amount the transport checked. */
  lemma DebitWithinCost(q: Quote, e: Quoted)
    requires q.feeBps == e.feeBps && q.feeBps >= -10000 && q.notional <= e.amount
    ensures q.Debit() <= e.Cost()
  {
    var rate := 1.0 + q.feeBps as real / 10000.0;
    NonNegative(e.amount - q.notional, rate);
    assert q.Debit() == q.notional * rate;
    assert e.Cost() == e.amount * rate;
    Distribute(e.amount, q.notional, rate);
  }

  lemma SaleBringsMoneyIn(q: Quote)
    requires q.notional >= 0.0 && q.feeBps <= 10000
    ensures q.Proceeds() >= 0.0
  {
    NonNegative(q.notional, 1.0 - q.feeBps as real / 10000.0);
    assert q.Proceeds() == q.notional * (1.0 - q.feeBps as real / 10000.0);
  }

  /** A fair quote takes no more than what its own request has left in the book. */
  lemma FairQuoteIsAssured(request: QuoteRequest, venue: Option<VenueQuote>, now: int, q: Quote, book: PaperBook)
    requires QuoteFrom(request, venue, now) == Some(q) && Fair(request, q) && Remembers(book, q.quoteId, request)
    ensures Outlay(q) <= Assured(book, q.quoteId)
  {
    QuotesArePriced(request, venue, now);
    if q.side == Buy {
      DebitWithinCost(q, book.quoted[q.quoteId]);
    } else {
      NonNegative(q.quantity, q.price);
      SaleBringsMoneyIn(q);
    }
  }

  /** Only a fill that takes money and a withdrawal lower the cash of an account without short positions. */
  lemma OnlyOutlaysTakeCash(gate: Gate, w: World, a: Action)
    requires NoShorts(w.account)
    requires a.Transfer? ==> a.direction != "OUTBOUND"
    ensures var after := Step(gate, w, a).world.account;
            || after.cash >= w.account.cash
            || (Fills(gate, w, a) && Outlay(a.quote) > 0.0 && after.cash == w.account.cash - Outlay(a.quote))
  {
    if a.PlaceOrder? {
      FillCash(w.account, a.quote, a.now);
    }
  }

  lemma FillKeepsNoShorts(a: Account, q: Quote, now: int)
    requires NoShorts(a) && (q.side == Buy ==> q.quantity >= 0.0)
    ensures NoShorts(Fill(a, q, now).account)
  {
  }

  lemma StepKeepsNoShorts(gate: Gate, w: World, a: Action)
    requires NoShorts(w.account)
    requires a.PlaceOrder? && a.quote.side == Buy ==> a.quote.quantity >= 0.0
    ensures NoShorts(Step(gate, w, a).world.account)
  {
    if a.PlaceOrder? {
      hide Step, Fill, Fills, DividesByZero;
      PlaceBooksItsFill(gate, w, a);
      FillKeepsNoShorts(w.account, a.quote, a.now);
    }
  }

  /** The last call of a disciplined run is safe where it is made. */
  lemma LastIsSafe(gate: Gate, w: World, acts: seq<Action>)
    requires w.paper.Some? && Disciplined(acts) && acts != [] && NoShorts(Run(gate, w, acts[..|acts| - 1]).account)
    ensures Run(gate, w, acts[..|acts| - 1]).paper.Some?
    ensures Safe(gate, Run(gate, w, acts[..|acts| - 1]), acts[|acts| - 1])
    ensures acts[|acts| - 1].PlaceOrder? && acts[|acts| - 1].quote.side == Buy ==> acts[|acts| - 1].quote.quantity >= 0.0
  {
    hide Step, QuoteFrom, Remembers, Outlay, Assured;
    var n := |acts| - 1;
    var before, last := acts[..n], acts[n];
    PaperStays(gate, w, before);
    if last.PlaceOrder? {
      var i :| 0 <= i < n && Current(acts, i, n);
      assert HandedOut(before, i, last.quote);
      QuoteStaysRemembered(gate, w, before, i, last.quote);
      FairQuoteIsAssured(
        acts[i].request, acts[i].venue, acts[i].now, last.quote, Run(gate, w, before).paper.value);
    }
  }

  lemma {:induction false} DisciplinedRunsAreSafe(gate: Gate, w: World, acts: seq<Action>)
    requires w.paper.Some? && NoShorts(w.account) && Disciplined(acts)
    ensures AllSafe(gate, w, acts) && NoShorts(Run(gate, w, acts).account)
  {
    hide Step, Safe, Disciplined, NoShorts;
    if acts != [] {
      var n := |acts| - 1;
      DisciplinedPrefix(acts, n);
      DisciplinedRunsAreSafe(gate, w, acts[..n]);
      LastIsSafe(gate, w, acts);
      StepKeepsNoShorts(gate, Run(gate, w, acts[..n]), acts[n]);
    }
  }

  /** Simulated cash never falls below zero by more than the tolerance, in any disciplined run. */
  lemma PaperStaysSolvent(gate: Gate, w: World, acts: seq<Action>)
    requires w.paper.Some? && NoShorts(w.account) && w.account.cash >= -TOLERANCE && Disciplined(acts)
    ensures Run(gate, w, acts).account.cash >= -TOLERANCE
  {
    DisciplinedRunsAreSafe(gate, w, acts);
    SafeRunStaysSolvent(gate, w, acts);
  }

  // ----- what happens without the discipline

  function Flat(cash: real): World {
    World(Account(cash, map[], [], 0.0, 0.0), Some(PaperBook(map[], {})), [], [])
  }

  /** Asking for `quantity` at a half, with the venue's answer under the id "q". */
  function Ask(
    side: string, quantity: real, price: Option<real>, amountOut: Option<int>, feeBps: int := 0): Action
  {
    Action.GetQuote(
      QuoteRequest("t", side, 0.5, quantity, feeBps, "MARKET"), Some(VenueQuote("q", price, amountOut, Some(10))), 0)
  }

  function Place(q: Quote): Action { Action.PlaceOrder(q, TransportRaised, "x", 0, false) }

  function Answered(side: Side, quantity: real, price: real, feeBps: int := 0): Quote {
    Quote("q", "t", side, Market, quantity, price, quantity * price, feeBps, 10)
  }

  lemma AskHandsOut(side: string, quantity: real, price: Option<real>, amountOut: Option<int>, feeBps: int := 0)
    requires side in {"BUY", "SELL"} && quantity > 0.0 && (amountOut.Some? ==> side == "BUY")
    ensures HandedOut(
              [Ask(side, quantity, price, amountOut, feeBps)], 0,
              Answered(if side == "BUY" then Buy else Sell,
                       if amountOut.Some? then amountOut.value as real / AMOUNT_OUT_UNIT else quantity,
                       price.GetOr(0.5), feeBps))
  {
    var got := if amountOut.Some? then amountOut.value as real / AMOUNT_OUT_UNIT else quantity;
    var paid := price.GetOr(0.5);
    var a := Ask(side, quantity, price, amountOut, feeBps);
    var q := QuoteFrom(a.request, a.venue, a.now).value;
    assert q.quantity == got && q.price == paid && q.notional == got * paid;
    assert q == Answered(if side == "BUY" then Buy else Sell, got, paid, feeBps);
    assert [a][0] == a;
  }

  lemma AfterAsk(
    w: World, side: string, quantity: real, price: Option<real>, amountOut: Option<int>, feeBps: int := 0)
    requires w.paper.Some? && side in {"BUY", "SELL"} && quantity > 0.0
    ensures var after := Step(Ungated, w, Ask(side, quantity, price, amountOut, feeBps)).world;
            && after.account == w.account
            && after.paper.Some?
            && after.paper.value.quoted == w.paper.value.quoted["q" :=
                 Quoted(if side == "BUY" then Buy else Sell, if side == "BUY" then quantity * 0.5 else quantity, feeBps)]
  {
  }

  /** A free placement: nothing is remembered under the id, or a BUY the cash covers, or a SELL. */
  lemma AfterPlace(w: World, q: Quote)
    requires w.paper.Some? && Covered(w.paper.value, w.account.cash, "q") && q.quoteId == "q" && q.expiresAt == 10
    ensures var after := Step(Ungated, w, Place(q)).world;
            && after.account.cash == w.account.cash - Outlay(q)
            && after.account.positions == Fill(w.account, q, 0).account.positions
            && after.paper.Some? && "q" !in after.paper.value.quoted
  {
    FilledMeansCovered(Ungated, w, Place(q));
    PlaceMovesCash(Ungated, w, Place(q));
    PlaceBooksItsFill(Ungated, w, Place(q));
  }

  lemma RunOfTwo(w: World, a: Action, b: Action)
    ensures Run(Ungated, w, [a, b]) == Step(Ungated, Step(Ungated, w, a).world, b).world
  {
    assert [a, b][..1] == [a] && [a][..0] == [];
    assert Run(Ungated, w, [a]) == Step(Ungated, w, a).world;
  }

  lemma RunOfThree(w: World, a: Action, b: Action, c: Action)
    ensures Run(Ungated, w, [a, b, c])
         == Step(Ungated, Step(Ungated, Step(Ungated, w, a).world, b).world, c).world
  {
    assert [a, b, c][..2] == [a, b];
    RunOfTwo(w, a, b);
  }

  /** Placing one fair quote twice overdraws: the second placement finds nothing to check. */
  lemma SecondPlacementOverdraws()
    ensures var ask, q := Ask("BUY", 20.0, None, None), Answered(Buy, 20.0, 0.5);
            && HandedOut([ask], 0, q) && Fair(ask.request, q)
            && Run(Ungated, Flat(10.0), [ask, Place(q), Place(q)]).account.cash == -10.0
  {
    hide Step, Fill;
    var ask, q := Ask("BUY", 20.0, None, None), Answered(Buy, 20.0, 0.5);
    var w := Step(Ungated, Flat(10.0), ask).world;
    AskHandsOut("BUY", 20.0, None, None);
    AfterAsk(Flat(10.0), "BUY", 20.0, None, None);
    AfterPlace(w, q);
    AfterPlace(Step(Ungated, w, Place(q)).world, q);
    RunOfThree(Flat(10.0), ask, Place(q), Place(q));
  }

  /** A quote dearer than its request overdraws: the check looks at the amount asked for. */
  lemma DearQuoteOverdraws()
    ensures var ask, q := Ask("BUY", 20.0, Some(0.6), None), Answered(Buy, 20.0, 0.6);
            && HandedOut([ask], 0, q)
            && Run(Ungated, Flat(10.0), [ask, Place(q)]).account.cash == -2.0
  {
    hide Step, Fill;
    var ask, q := Ask("BUY", 20.0, Some(0.6), None), Answered(Buy, 20.0, 0.6);
    AskHandsOut("BUY", 20.0, Some(0.6), None);
    AfterAsk(Flat(10.0), "BUY", 20.0, Some(0.6), None);
    AfterPlace(Step(Ungated, Flat(10.0), ask).world, q);
    RunOfTwo(Flat(10.0), ask, Place(q));
  }

  /** A venue that answers twice under one id has the large quote checked against the small request. */
  lemma ReusedIdOverdraws()
    ensures var large, small, q := Ask("BUY", 20.0, None, None), Ask("BUY", 2.0, None, None), Answered(Buy, 20.0, 0.5);
            && HandedOut([large], 0, q) && Fair(large.request, q)
            && HandedOut([small], 0, Answered(Buy, 2.0, 0.5)) && Fair(small.request, Answered(Buy, 2.0, 0.5))
            && Run(Ungated, Flat(1.0), [large, small, Place(q)]).account.cash == -9.0
  {
    hide Step, Fill;
    var large, small, q := Ask("BUY", 20.0, None, None), Ask("BUY", 2.0, None, None), Answered(Buy, 20.0, 0.5);
    var w := Step(Ungated, Flat(1.0), large).world;
    AskHandsOut("BUY", 20.0, None, None);
    AskHandsOut("BUY", 2.0, None, None);
    AfterAsk(Flat(1.0), "BUY", 20.0, None, None);
    AfterAsk(w, "BUY", 2.0, None, None);
    AfterPlace(Step(Ungated, w, small).world, q);
    RunOfThree(Flat(1.0), large, small, Place(q));
  }

  /** A sale at a negative price costs money that nothing checks. */
  lemma NegativeSaleOverdraws()
    ensures var ask, q := Ask("SELL", 10.0, Some(-0.5), None), Answered(Sell, 10.0, -0.5);
            && HandedOut([ask], 0, q)
            && Run(Ungated, Flat(0.0), [ask, Place(q)]).account.cash == -5.0
  {
    hide Step, Fill;
    var ask, q := Ask("SELL", 10.0, Some(-0.5), None), Answered(Sell, 10.0, -0.5);
    AskHandsOut("SELL", 10.0, Some(-0.5), None);
    AfterAsk(Flat(0.0), "SELL", 10.0, Some(-0.5), None);
    AfterPlace(Step(Ungated, Flat(0.0), ask).world, q);
    RunOfTwo(Flat(0.0), ask, Place(q));
  }

  /** A fee of twice what a sale is worth costs money that nothing checks. */
  lemma FeeAboveProceedsOverdraws()
    ensures var ask, q := Ask("SELL", 10.0, None, None, 20000), Answered(Sell, 10.0, 0.5, 20000);
            && HandedOut([ask], 0, q)
            && Run(Ungated, Flat(0.0), [ask, Place(q)]).account.cash == -5.0
  {
    hide Step, Fill;
    var ask, q := Ask("SELL", 10.0, None, None, 20000), Answered(Sell, 10.0, 0.5, 20000);
    AskHandsOut("SELL", 10.0, None, None, 20000);
    AfterAsk(Flat(0.0), "SELL", 10.0, None, None, 20000);
    AfterPlace(Step(Ungated, Flat(0.0), ask).world, q);
    RunOfTwo(Flat(0.0), ask, Place(q));
  }

  const MINUS_TWENTY: int := -20000000000000000000

  /** Minus twenty contracts, promised by the venue and bought, are a debt that a winning redemption collects. */
  lemma ShortPositionOverdraws()
    ensures var ask, q := Ask("BUY", 2.0, None, Some(MINUS_TWENTY)), Answered(Buy, -20.0, 0.5);
            && HandedOut([ask], 0, q)
            && Run(Ungated, Flat(1.0), [ask, Place(q), Action.Redeem("t", true, true, true)]).account.cash == -9.0
  {
    hide Step, Fill;
    var ask, q := Ask("BUY", 2.0, None, Some(MINUS_TWENTY)), Answered(Buy, -20.0, 0.5);
    var redeem := Action.Redeem("t", true, true, true);
    var asked := Step(Ungated, Flat(1.0), ask).world;
    assert MINUS_TWENTY as real / AMOUNT_OUT_UNIT == -20.0;
    AskHandsOut("BUY", 2.0, None, Some(MINUS_TWENTY));
    AfterAsk(Flat(1.0), "BUY", 2.0, None, Some(MINUS_TWENTY));
    AfterPlace(asked, q);
    BoughtIntoNothing(asked.account, q);
    ShortIsRedeemed(Step(Ungated, asked, Place(q)).world);
    RunOfThree(Flat(1.0), ask, Place(q), redeem);
  }

  lemma BoughtIntoNothing(a: Account, q: Quote)
    requires q.side == Buy && q.tokenId !in a.positions
    ensures var after := Fill(a, q, 0).account.positions;
            q.tokenId in after && after[q.tokenId].quantity == q.quantity
  {
  }

  lemma ShortIsRedeemed(w: World)
    requires w.paper.Some? && "t" in w.account.positions
    ensures Step(Ungated, w, Action.Redeem("t", true, true, true)).world.account.cash
         == w.account.cash + w.account.positions["t"].quantity
  {
  }

  /** A withdrawal is booked whatever the account holds. */
  lemma WithdrawalOverdraws()
    ensures Run(Ungated, Flat(10.0), [Action.Transfer("OUTBOUND", 20.0, true, true)]).account.cash == -10.0
  {
    var acts := [Action.Transfer("OUTBOUND", 20.0, true, true)];
    assert acts[..0] == [];
  }
}
