/**
 The arithmetic of one order (fidelity_gateway/broker.py and placing_broker.py),
 over exact numbers: how many shares, at what limit, under which ceiling.
 */
module Orders {
  import opened Seqs

  // Ids, accounts and symbols are only ever compared.
  type Id = int

  datatype Side = Buy | Sell

  datatype Refusal =
    | BadQuantity
    | BadPrice
    | BadSymbol
    | OverCeiling
    | NoDecision
    | NotOneShare
    | AlreadyPlaced

  datatype Order = Order(symbol: Id, side: Side, qty: real, limit: real, decision: Id)

  datatype Limits = Limits(allowed: set<Id>, maxOrderValue: real)

  datatype Ticket = Ticket(symbol: Id, side: Side, qty: int, limit: real)

  function Floor(x: real): int {
    x.Floor
  }

  function Ceiling(x: real): int {
    -(-x).Floor
  }

  function Cents(n: int): real {
    n as real / 100.0
  }

  // A buy rounds down to the cent, a sell up.
  function LimitToCent(side: Side, price: real): real {
    Cents(if side.Buy? then Floor(price * 100.0) else Ceiling(price * 100.0))
  }

  lemma WholeCents(n: int)
    ensures Cents(n) * 100.0 == n as real && Floor(Cents(n) * 100.0) == n && Ceiling(Cents(n) * 100.0) == n
  {
  }

  lemma FloorBounds(x: real)
    ensures Floor(x) as real <= x < Floor(x) as real + 1.0
    ensures Ceiling(x) as real - 1.0 < x <= Ceiling(x) as real
  {
  }

  // Never to the wrong side, never by a cent or more, and not at all when the
  // price is in whole cents.
  lemma LimitIsWithinACent(side: Side, price: real)
    ensures side.Buy? ==> price - 0.01 < LimitToCent(side, price) <= price
    ensures side.Sell? ==> price <= LimitToCent(side, price) < price + 0.01
    ensures exists n :: LimitToCent(side, price) == Cents(n)
    ensures forall n | price == Cents(n) :: LimitToCent(side, price) == price
  {
    var rounded := if side.Buy? then Floor(price * 100.0) else Ceiling(price * 100.0);
    WholeCents(rounded);
    FloorBounds(price * 100.0);
    assert LimitToCent(side, price) == Cents(rounded);
    forall n | price == Cents(n) ensures rounded == n {
      WholeCents(n);
    }
  }

  // A buy under one cent gets a ticket with no price; nothing else does.
  lemma TicketHasAPriceIff(side: Side, price: real)
    requires price > 0.0
    ensures LimitToCent(side, price) > 0.0 <==> side.Sell? || price >= 0.01
  {
    LimitIsWithinACent(side, price);
    FloorBounds(price * 100.0);
  }

  // What place checks before it looks at the journal, in its order.
  function Gates(limits: Limits, o: Order): Option<Refusal> {
    if o.qty <= 0.0 then Some(BadQuantity)
    else if o.limit <= 0.0 then Some(BadPrice)
    else if o.symbol !in limits.allowed then Some(BadSymbol)
    else if o.side.Buy? && o.qty * o.limit > limits.maxOrderValue then Some(OverCeiling)
    else None
  }

  // int(qty) and the limit in cents.
  function BuildTicket(o: Order): Ticket {
    Ticket(o.symbol, o.side, o.qty.Floor, LimitToCent(o.side, o.limit))
  }

  datatype Sized = Sized(order: Order) | Unsized(refusal: Refusal)

  // submit_buy up to its call of place. A quote is a positive price or an error
  // raised before this.
  function SizeBuy(symbol: Id, tradeValue: real, decision: Option<Id>, limit: Option<real>, quote: real): Sized
    requires quote > 0.0
  {
    if tradeValue <= 0.0 then Unsized(BadQuantity)
    else if limit.Some? && limit.value <= 0.0 then Unsized(BadPrice)
    else if decision == None then Unsized(NoDecision)
    else
      var price := if limit.Some? then limit.value else quote;
      var qty := (tradeValue / price).Floor;
      if qty < 1 then Unsized(NotOneShare) else Sized(Order(symbol, Buy, qty as real, price, decision.value))
  }

  function SizeSell(symbol: Id, qty: real, decision: Option<Id>, target: real): Sized {
    if qty <= 0.0 then Unsized(BadQuantity)
    else if decision == None then Unsized(NoDecision)
    else Sized(Order(symbol, Sell, qty, target, decision.value))
  }

  // A buy that gets through spends no more than it was given and no more than
  // the ceiling, even at its own target price, and one share more would not
  // have been affordable.
  lemma BuyIsAffordable(limits: Limits, symbol: Id, tradeValue: real, decision: Option<Id>, limit: Option<real>, quote: real)
    requires quote > 0.0 && SizeBuy(symbol, tradeValue, decision, limit, quote).Sized?
    requires Gates(limits, SizeBuy(symbol, tradeValue, decision, limit, quote).order) == None
    ensures var o := SizeBuy(symbol, tradeValue, decision, limit, quote).order;
            var t := BuildTicket(o);
            && o.symbol == t.symbol == symbol && o.side == t.side == Buy && Some(o.decision) == decision
            && o.limit == (if limit.Some? then limit.value else quote)
            && t.qty as real == o.qty && t.qty >= 1
            && t.qty as real * t.limit <= o.qty * o.limit
            && o.qty * o.limit <= tradeValue && o.qty * o.limit <= limits.maxOrderValue
            && tradeValue < (o.qty + 1.0) * o.limit
  {
    var price := if limit.Some? then limit.value else quote;
    var o := SizeBuy(symbol, tradeValue, decision, limit, quote).order;
    var qty := (tradeValue / price).Floor;
    WholeShares(tradeValue, price);
    LimitIsWithinACent(Buy, price);
    assert o.qty == qty as real && o.qty.Floor == qty;
    Scaled(LimitToCent(Buy, price), price, o.qty);
    assert o.qty * price == price * o.qty;
  }

  // The largest whole number of shares the money buys.
  lemma WholeShares(tradeValue: real, price: real)
    requires price > 0.0
    ensures (tradeValue / price).Floor as real * price <= tradeValue
    ensures tradeValue < ((tradeValue / price).Floor as real + 1.0) * price
  {
    var ratio := tradeValue / price;
    FloorBounds(ratio);
    assert ratio * price == tradeValue;
    Scaled(ratio.Floor as real, ratio, price);
    var more := ratio.Floor as real + 1.0;
    assert ratio < more;
    ScaledStrictly(ratio, more, price);
    assert tradeValue < more * price;
  }

  lemma Scaled(a: real, b: real, k: real)
    requires k >= 0.0 && a <= b
    ensures a * k <= b * k
  {
  }

  lemma ScaledStrictly(a: real, b: real, k: real)
    requires k > 0.0 && a < b
    ensures a * k < b * k
  {
  }

  lemma OneShareIff(tradeValue: real, price: real)
    requires price > 0.0
    ensures (tradeValue / price).Floor >= 1 <==> tradeValue >= price
  {
    var ratio := tradeValue / price;
    assert ratio * price == tradeValue;
    FloorBounds(ratio);
    if ratio < 1.0 {
      ScaledStrictly(ratio, 1.0, price);
    } else {
      Scaled(1.0, ratio, price);
      assert tradeValue >= price;
      assert ratio.Floor >= 1;
    }
  }

  // Fewer shares at a lower price cost less.
  lemma CostsLess(a: real, b: real, low: real, high: real)
    requires 0.0 <= a <= b && low <= high && high >= 0.0
    ensures a * low <= b * high
  {
    Scaled(low, high, a);
    Scaled(a, b, high);
    assert low * a == a * low && high * a == a * high;
  }

  // It is sized exactly when the money buys one whole share at the price it is
  // to go out at.
  lemma BuyIsSizedIff(symbol: Id, tradeValue: real, decision: Id, limit: Option<real>, quote: real)
    requires quote > 0.0
    ensures SizeBuy(symbol, tradeValue, Some(decision), limit, quote).Sized?
            <==> var price := if limit.Some? then limit.value else quote;
                 price > 0.0 && tradeValue >= price
  {
    var price := if limit.Some? then limit.value else quote;
    if price > 0.0 {
      OneShareIff(tradeValue, price);
    }
  }

  // A sell goes out at its target or above, for no more shares than asked, and
  // no ceiling stops it.
  lemma SellIsNeverBelowTarget(limits: Limits, symbol: Id, qty: real, decision: Id, target: real)
    requires qty > 0.0
    ensures var o := SizeSell(symbol, qty, Some(decision), target).order;
            var t := BuildTicket(o);
            && o.symbol == t.symbol == symbol && o.side == t.side == Sell && o.decision == decision
            && target <= t.limit < target + 0.01
            && t.qty as real <= qty < t.qty as real + 1.0
            && (Gates(limits, o) == None <==> target > 0.0 && symbol in limits.allowed)
  {
    LimitIsWithinACent(Sell, target);
  }
}
