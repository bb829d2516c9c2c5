/** The transport that fills orders locally (runtime/paper_trading.py). */
module PaperTrading {
  import opened Wrappers
  import opened Domain

  const TOLERANCE: real := 0.000000001

  /** What the paper transport remembers of a quote: the amount asked for, not the venue's answer. */
  datatype Quoted = Quoted(side: Side, amount: real, feeBps: int) {
    function Cost(): real { amount * (1.0 + feeBps as real / 10000.0) }
  }

  datatype PaperBook = PaperBook(quoted: map<string, Quoted>, orders: set<string>)

  /** How a transport answers an order: it raises, or it names an order and a status. */
  datatype PlaceReply = TransportRaised | Replied(orderId: string, status: string)

  predicate Covered(book: PaperBook, cash: real, quoteId: string) {
    quoteId in book.quoted && book.quoted[quoteId].side == Buy ==>
      book.quoted[quoteId].Cost() <= cash + TOLERANCE
  }

  function PaperOrderId(freshId: string): string { "paper-" + freshId }

  function PaperPlace(book: PaperBook, cash: real, quoteId: string, freshId: string): (PaperBook, PlaceReply) {
    var popped := book.(quoted := book.quoted - {quoteId});
    if Covered(book, cash, quoteId) then
      (popped.(orders := book.orders + {PaperOrderId(freshId)}), Replied(PaperOrderId(freshId), "FILLED"))
    else
      (popped, TransportRaised)
  }

  /** A cancel reaches the orders filled here and no others. */
  function PaperCancel(book: PaperBook, orderIds: seq<string>): set<string> {
    set id | id in orderIds && id in book.orders
  }

  class PaperWriteTransport {
    const state: AccountState
    var quoted: map<string, Quoted>
    var orders: set<string>

    constructor (state: AccountState)
      ensures this.state == state && View() == PaperBook(map[], {})
    {
      this.state := state;
      quoted, orders := map[], {};
    }

    function View(): PaperBook
      reads this
    {
      PaperBook(quoted, orders)
    }

    method RememberQuote(quoteId: string, side: Side, amount: real, feeBps: int)
      modifies this
      ensures View() == old(View()).(quoted := old(quoted)[quoteId := Quoted(side, amount, feeBps)])
    {
      quoted := quoted[quoteId := Quoted(side, amount, feeBps)];
    }

    /** Fill the quote at once, unless it is a remembered BUY the account cannot cover. */
    method PlaceOrder(quoteId: string, freshId: string) returns (reply: PlaceReply)
      modifies this
      ensures (View(), reply) == PaperPlace(old(View()), state.cash, quoteId, freshId)
    {
      var entry: Option<Quoted> := None;
      if quoteId in quoted {
        entry := Some(quoted[quoteId]);
      }
      quoted := quoted - {quoteId};
      if entry.Some? && entry.value.side == Buy {
        var cost := entry.value.amount * (1.0 + entry.value.feeBps as real / 10000.0);
        if cost > state.cash + TOLERANCE {
          return TransportRaised;
        }
      }
      orders := orders + {PaperOrderId(freshId)};
      reply := Replied(PaperOrderId(freshId), "FILLED");
    }

    method CancelOrders(orderIds: seq<string>) returns (canceled: set<string>)
      ensures canceled == PaperCancel(View(), orderIds)
    {
      canceled := {};
      var i := 0;
      while i < |orderIds|
        invariant 0 <= i <= |orderIds|
        invariant canceled == PaperCancel(View(), orderIds[..i])
      {
        if orderIds[i] in orders {
          canceled := canceled + {orderIds[i]};
        }
        assert orderIds[..i + 1] == orderIds[..i] + [orderIds[i]];
        i := i + 1;
      }
      assert orderIds[..i] == orderIds;
    }
  }
}
