/**
 * Orders and the order-placement rules of the order service: the per-line checks
 * of createOrder, what a successful placement does to stock, which items and
 * total it records, and the order view (mapToDTO) with its subtotals.
 */
module Orders {
  import opened Common
  import opened Books
  import opened Customers

  type OrderId = int

  datatype OrderStatus = Pending | Confirmed | Shipped | Delivered | Cancelled

  /** One line of the posted cart (an OrderItemDTO as the client sends it). */
  datatype CartLine = CartLine(bookId: BookId, quantity: int)

  /** A persisted order item: the book, the quantity and the unit price captured at order time. */
  datatype OrderItem = OrderItem(bookId: BookId, quantity: int, price: Cents)

  /** A persisted order (shipping address and order date are not modelled). */
  datatype Order = Order(customerId: CustomerId, totalAmount: Cents, status: OrderStatus, items: seq<OrderItem>)

  /** One line of the order as reported (OrderItemDTO as mapToDTO builds it, without the book title). */
  datatype OrderItemView = OrderItemView(bookId: BookId, quantity: int, price: Cents, subtotal: Cents)

  /** An order as reported (OrderDTO as mapToDTO builds it, without the order date). */
  datatype OrderView = OrderView(
    id: OrderId,
    customerId: CustomerId,
    customerName: string,
    items: seq<OrderItemView>,
    totalAmount: Cents)

  // ---------------------------------------------------------------------------
  // Reference definitions: what an order asks for, and what it should cost

  function Subtotal(item: OrderItem): Cents {
    item.price * item.quantity
  }

  /** The sum of the subtotals of the items. */
  function OrderTotal(items: seq<OrderItem>): Cents {
    if items == [] then 0 else Subtotal(items[0]) + OrderTotal(items[1..])
  }

  /** The quantity of book `b` that the cart asks for, over all its lines. */
  function Ordered(cart: seq<CartLine>, b: BookId): int {
    if cart == [] then 0
    else (if cart[0].bookId == b then cart[0].quantity else 0) + Ordered(cart[1..], b)
  }

  /** The quantity of book `b` that the items record, over all of them. */
  function ItemQuantity(items: seq<OrderItem>, b: BookId): int {
    if items == [] then 0
    else (if items[0].bookId == b then items[0].quantity else 0) + ItemQuantity(items[1..], b)
  }

  /**
   * The cart can be placed: every line asks for a positive quantity of a book that
   * exists, and no book is asked for, over all lines, more than its stock.
   */
  predicate Fulfillable(books: map<BookId, Book>, cart: seq<CartLine>) {
    forall i :: 0 <= i < |cart| ==>
      && cart[i].quantity > 0
      && cart[i].bookId in books
      && Ordered(cart, cart[i].bookId) <= books[cart[i].bookId].stockQuantity
  }

  /** The book table once the cart's quantities are taken out of stock. */
  function Deducted(books: map<BookId, Book>, cart: seq<CartLine>): (r: map<BookId, Book>)
    ensures r.Keys == books.Keys
    ensures forall b :: b in books ==> r[b].stockQuantity == books[b].stockQuantity - Ordered(cart, b)
  {
    map b | b in books :: books[b].(stockQuantity := books[b].stockQuantity - Ordered(cart, b))
  }

  /** The items the cart becomes: one per line, in order, each with the book's price in `books`. */
  function Captured(books: map<BookId, Book>, cart: seq<CartLine>): (r: seq<OrderItem>)
    requires forall i :: 0 <= i < |cart| ==> cart[i].bookId in books
    ensures |r| == |cart|
    ensures forall i :: 0 <= i < |cart| ==>
      r[i] == OrderItem(cart[i].bookId, cart[i].quantity, books[cart[i].bookId].price)
  {
    if cart == [] then []
    else [OrderItem(cart[0].bookId, cart[0].quantity, books[cart[0].bookId].price)] + Captured(books, cart[1..])
  }

  // ---------------------------------------------------------------------------
  // The loop of createOrder, one line at a time

  /** The checks createOrder makes on one line against the current stock, in the order it makes them. */
  function LineCheck(books: map<BookId, Book>, line: CartLine): Option<Error> {
    if line.quantity <= 0 then Some(OrderValidation)
    else if line.bookId !in books then Some(NotFound(BookResource))
    else if books[line.bookId].stockQuantity < line.quantity then Some(InvalidArgument)
    else None
  }

  /** The loop's state: the book table as changed so far, the items built so far, the running total. */
  datatype Progress = Progress(books: map<BookId, Book>, items: seq<OrderItem>, total: Cents)

  /** One iteration of the loop. */
  function Step(p: Progress, line: CartLine): Result<Progress> {
    match LineCheck(p.books, line)
    case Some(e) => Err(e)
    case None =>
      var book := p.books[line.bookId];
      Ok(Progress(
        p.books[line.bookId := book.(stockQuantity := book.stockQuantity - line.quantity)],
        p.items + [OrderItem(line.bookId, line.quantity, book.price)],
        p.total + book.price * line.quantity))
  }

  /** The loop run from state `p` over the remaining lines; the first failing line ends it. */
  function Run(p: Progress, cart: seq<CartLine>): Result<Progress>
    decreases |cart|
  {
    if cart == [] then Ok(p)
    else
      match Step(p, cart[0])
      case Err(e) => Err(e)
      case Ok(q) => Run(q, cart[1..])
  }

  /**
   * Which error a line raises: the quantity is checked first, then the book's
   * existence, then its stock; a line passing all three raises nothing.
   */
  lemma LineCheckOrder(books: map<BookId, Book>, line: CartLine)
    ensures LineCheck(books, line) == Some(OrderValidation) <==> line.quantity <= 0
    ensures LineCheck(books, line) == Some(NotFound(BookResource)) <==>
      line.quantity > 0 && line.bookId !in books
    ensures LineCheck(books, line) == Some(InvalidArgument) <==>
      line.quantity > 0 && line.bookId in books && books[line.bookId].stockQuantity < line.quantity
    ensures LineCheck(books, line).None? <==>
      line.quantity > 0 && line.bookId in books && line.quantity <= books[line.bookId].stockQuantity
  {
  }

  /**
   * One iteration fails exactly when its line fails the checks, with that error.
   * Otherwise it takes the quantity out of the named book's stock, leaving it at 0
   * or more, touches no other book, appends one item at the book's price, and
   * adds that item's subtotal to the total.
   */
  lemma StepTakesOneLine(p: Progress, line: CartLine)
    ensures Step(p, line).Err? <==> LineCheck(p.books, line).Some?
    ensures Step(p, line).Err? ==> LineCheck(p.books, line) == Some(Step(p, line).error)
    ensures Step(p, line).Ok? ==>
      && line.bookId in p.books
      && Step(p, line).value.books.Keys == p.books.Keys
      && Step(p, line).value.books[line.bookId]
           == p.books[line.bookId].(stockQuantity := p.books[line.bookId].stockQuantity - line.quantity)
      && Step(p, line).value.books[line.bookId].stockQuantity >= 0
      && (forall b :: b in p.books && b != line.bookId ==> Step(p, line).value.books[b] == p.books[b])
      && Step(p, line).value.items == p.items + [OrderItem(line.bookId, line.quantity, p.books[line.bookId].price)]
      && Step(p, line).value.total == p.total + Subtotal(Step(p, line).value.items[|p.items|])
  {
  }

  /**
   * The loop can be stopped after any prefix of the cart and resumed on the rest:
   * running the whole cart is running the prefix, then, if it passed, the rest.
   */
  lemma {:induction false} RunSplits(p: Progress, a: seq<CartLine>, b: seq<CartLine>)
    ensures Run(p, a + b) == match Run(p, a) case Err(e) => Err(e) case Ok(q) => Run(q, b)
    decreases |a|
  {
    if a == [] {
      assert a + b == b;
    } else {
      assert (a + b)[0] == a[0] && (a + b)[1..] == a[1..] + b;
      match Step(p, a[0])
      case Err(_) =>
      case Ok(q) => RunSplits(q, a[1..], b);
    }
  }

  /** The loop over a non-empty remainder is one step, then, if it passed, the loop over the rest. */
  lemma RunUnfolds(p: Progress, cart: seq<CartLine>)
    requires cart != []
    ensures LineCheck(p.books, cart[0]).Some? ==> Run(p, cart) == Err(LineCheck(p.books, cart[0]).value)
    ensures LineCheck(p.books, cart[0]).None? ==>
      var line := cart[0];
      var book := p.books[line.bookId];
      Run(p, cart) == Run(Progress(
        p.books[line.bookId := book.(stockQuantity := book.stockQuantity - line.quantity)],
        p.items + [OrderItem(line.bookId, line.quantity, book.price)],
        p.total + book.price * line.quantity), cart[1..])
  {
  }

  // ---------------------------------------------------------------------------
  // What the loop computes

  lemma {:induction false} OrderedNonNegative(cart: seq<CartLine>, b: BookId)
    requires forall i :: 0 <= i < |cart| ==> cart[i].quantity > 0
    ensures Ordered(cart, b) >= 0
  {
    if cart != [] {
      OrderedNonNegative(cart[1..], b);
    }
  }

  /** A book that no line names is not asked for at all. */
  lemma {:induction false} OrderedUnnamed(cart: seq<CartLine>, b: BookId)
    requires forall i :: 0 <= i < |cart| ==> cart[i].bookId != b
    ensures Ordered(cart, b) == 0
  {
    if cart != [] {
      OrderedUnnamed(cart[1..], b);
    }
  }

  lemma CapturedSamePrices(books: map<BookId, Book>, books': map<BookId, Book>, cart: seq<CartLine>)
    requires forall i :: 0 <= i < |cart| ==> cart[i].bookId in books && cart[i].bookId in books'
    requires forall b :: b in books && b in books' ==> books[b].price == books'[b].price
    ensures Captured(books, cart) == Captured(books', cart)
  {
  }

  /** A line whose checks fail makes the whole cart unplaceable. */
  lemma {:induction false} FailingLineUnfulfillable(p: Progress, cart: seq<CartLine>)
    requires cart != [] && Step(p, cart[0]).Err?
    ensures !Fulfillable(p.books, cart)
  {
    var line, rest := cart[0], cart[1..];
    if line.quantity > 0 && line.bookId in p.books {
      if forall j :: 0 <= j < |rest| ==> rest[j].quantity > 0 {
        OrderedNonNegative(rest, line.bookId);
        assert Ordered(cart, line.bookId) > p.books[line.bookId].stockQuantity;
      } else {
        var j :| 0 <= j < |rest| && rest[j].quantity <= 0;
        assert cart[j + 1] == rest[j];
      }
    }
  }

  /** After a passing line, the rest of the cart is placeable exactly when the whole cart was. */
  lemma {:induction false} PassingLineKeepsFulfillable(p: Progress, cart: seq<CartLine>, q: Progress)
    requires cart != [] && Step(p, cart[0]) == Ok(q)
    ensures Fulfillable(p.books, cart) <==> Fulfillable(q.books, cart[1..])
  {
    var line, rest := cart[0], cart[1..];
    var id := line.bookId;
    assert q.books.Keys == p.books.Keys;
    assert Ordered(cart, id) == line.quantity + Ordered(rest, id);
    assert forall b :: b != id ==> Ordered(cart, b) == Ordered(rest, b);
    if Fulfillable(p.books, cart) {
      forall j | 0 <= j < |rest|
        ensures Ordered(rest, rest[j].bookId) <= q.books[rest[j].bookId].stockQuantity
      {
        assert cart[j + 1] == rest[j];
      }
    }
    if Fulfillable(q.books, rest) {
      if forall j :: 0 <= j < |rest| ==> rest[j].bookId != id {
        OrderedUnnamed(rest, id);
      }
      forall i | 0 <= i < |cart|
        ensures cart[i].quantity > 0 && cart[i].bookId in p.books
        ensures Ordered(cart, cart[i].bookId) <= p.books[cart[i].bookId].stockQuantity
      {
        if i > 0 {
          assert cart[i] == rest[i - 1];
        }
      }
    }
  }

  /** After a passing line, deducting the rest of the cart from the new table is deducting the whole from the old. */
  lemma {:induction false} PassingLineDeducts(p: Progress, cart: seq<CartLine>, q: Progress)
    requires cart != [] && Step(p, cart[0]) == Ok(q)
    ensures Deducted(q.books, cart[1..]) == Deducted(p.books, cart)
  {
    var id := cart[0].bookId;
    forall b | b in p.books
      ensures Deducted(q.books, cart[1..])[b] == Deducted(p.books, cart)[b]
    {
      assert Ordered(cart, b) == (if b == id then cart[0].quantity else 0) + Ordered(cart[1..], b);
    }
  }

  /** The first captured item is the first line at its book's price; the total splits the same way. */
  lemma {:induction false} CapturedHead(books: map<BookId, Book>, cart: seq<CartLine>)
    requires cart != []
    requires forall i :: 0 <= i < |cart| ==> cart[i].bookId in books
    ensures Captured(books, cart) ==
      [OrderItem(cart[0].bookId, cart[0].quantity, books[cart[0].bookId].price)] + Captured(books, cart[1..])
    ensures OrderTotal(Captured(books, cart)) ==
      Subtotal(OrderItem(cart[0].bookId, cart[0].quantity, books[cart[0].bookId].price))
      + OrderTotal(Captured(books, cart[1..]))
  {
    var whole := Captured(books, cart);
    assert whole[1..] == Captured(books, cart[1..]);
  }

  /**
   * Appending the first line's item and then the items of the rest, captured at
   * the same prices, gives the items of the whole cart.
   */
  lemma {:induction false} CapturesAppend(
    books: map<BookId, Book>, books': map<BookId, Book>, cart: seq<CartLine>, items: seq<OrderItem>)
    requires cart != []
    requires forall i :: 0 <= i < |cart| ==> cart[i].bookId in books && cart[i].bookId in books'
    requires forall b :: b in books && b in books' ==> books[b].price == books'[b].price
    ensures items + [OrderItem(cart[0].bookId, cart[0].quantity, books[cart[0].bookId].price)]
      + Captured(books', cart[1..]) == items + Captured(books, cart)
  {
    var item := OrderItem(cart[0].bookId, cart[0].quantity, books[cart[0].bookId].price);
    CapturedSamePrices(books', books, cart[1..]);
    CapturedHead(books, cart);
    var tail := Captured(books, cart[1..]);
    assert items + [item] + tail == items + ([item] + tail);
  }

  /** The same split for the totals: the first line's subtotal plus the rest's total is the whole cart's total. */
  lemma {:induction false} TotalsAppend(
    books: map<BookId, Book>, books': map<BookId, Book>, cart: seq<CartLine>, total: Cents)
    requires cart != []
    requires forall i :: 0 <= i < |cart| ==> cart[i].bookId in books && cart[i].bookId in books'
    requires forall b :: b in books && b in books' ==> books[b].price == books'[b].price
    ensures total + Subtotal(OrderItem(cart[0].bookId, cart[0].quantity, books[cart[0].bookId].price))
      + OrderTotal(Captured(books', cart[1..])) == total + OrderTotal(Captured(books, cart))
  {
    CapturedSamePrices(books', books, cart[1..]);
    CapturedHead(books, cart);
  }

  /** After a passing line, the items and total built from the rest of the cart complete those of the whole. */
  lemma {:induction false} PassingLineCaptures(p: Progress, cart: seq<CartLine>, q: Progress)
    requires cart != [] && Step(p, cart[0]) == Ok(q)
    requires forall i :: 0 < i < |cart| ==> cart[i].bookId in p.books
    ensures q.items + Captured(q.books, cart[1..]) == p.items + Captured(p.books, cart)
    ensures q.total + OrderTotal(Captured(q.books, cart[1..])) == p.total + OrderTotal(Captured(p.books, cart))
  {
    StepTakesOneLine(p, cart[0]);
    CapturesAppend(p.books, q.books, cart, p.items);
    TotalsAppend(p.books, q.books, cart, p.total);
  }

  /**
   * The loop succeeds exactly when the cart is fulfillable; it then leaves the book
   * table with the cart's quantities taken out of stock, appends one item per line
   * with the price found at the start, and adds the sum of their subtotals to the total.
   */
  lemma {:induction false} RunMeaning(p: Progress, cart: seq<CartLine>)
    ensures Run(p, cart).Ok? <==> Fulfillable(p.books, cart)
    ensures Run(p, cart).Ok? ==>
      Fulfillable(p.books, cart) &&
      Run(p, cart).value == Progress(
        Deducted(p.books, cart),
        p.items + Captured(p.books, cart),
        p.total + OrderTotal(Captured(p.books, cart)))
    decreases |cart|
  {
    if cart == [] {
      assert Deducted(p.books, cart) == p.books;
    } else {
      match Step(p, cart[0])
      case Err(e) =>
        FailingLineUnfulfillable(p, cart);
      case Ok(q) =>
        RunMeaning(q, cart[1..]);
        PassingLineKeepsFulfillable(p, cart, q);
        if Run(p, cart).Ok? {
          PassingLineDeducts(p, cart, q);
          PassingLineCaptures(p, cart, q);
        }
    }
  }

  /**
   * A failing run fails at the first line whose checks fail against the stock left
   * by the lines before it (all of which pass), with that line's error.
   */
  lemma {:induction false} RunFailsAtFirstBadLine(p: Progress, cart: seq<CartLine>)
    requires Run(p, cart).Err?
    ensures exists i ::
      && 0 <= i < |cart|
      && Fulfillable(p.books, cart[..i])
      && LineCheck(Deducted(p.books, cart[..i]), cart[i]) == Some(Run(p, cart).error)
    decreases |cart|
  {
    var line, rest := cart[0], cart[1..];
    match Step(p, line)
    case Err(e) =>
      assert cart[..0] == [];
      assert Deducted(p.books, cart[..0]) == p.books;
      assert LineCheck(Deducted(p.books, cart[..0]), cart[0]) == Some(Run(p, cart).error);
    case Ok(q) =>
      RunFailsAtFirstBadLine(q, rest);
      var j :| 0 <= j < |rest| && Fulfillable(q.books, rest[..j]) &&
        LineCheck(Deducted(q.books, rest[..j]), rest[j]) == Some(Run(q, rest).error);
      var i := j + 1;
      assert cart[..i] == [line] + rest[..j];
      assert cart[..i][1..] == rest[..j];
      RunMeaning(q, rest[..j]);
      RunMeaning(p, cart[..i]);
      assert Run(p, cart[..i]) == Run(q, rest[..j]);
      assert cart[i] == rest[j];
  }

  /**
   * A book on two lines is checked the second time against the stock the first
   * line left: two lines that each fit the stock but together exceed it fail at
   * the second line with invalid-argument.
   */
  lemma RepeatedBookSeesReducedStock(books: map<BookId, Book>, b: BookId, q1: int, q2: int)
    requires b in books && 0 < q1 <= books[b].stockQuantity && 0 < q2 <= books[b].stockQuantity
    requires q1 + q2 > books[b].stockQuantity
    ensures Run(Progress(books, [], 0), [CartLine(b, q1), CartLine(b, q2)]) == Err(InvalidArgument)
  {
    var cart := [CartLine(b, q1), CartLine(b, q2)];
    assert cart[1..] == [CartLine(b, q2)];
    assert cart[1..][1..] == [];
  }

  /** A book the cart does not name keeps every field, its stock included. */
  lemma UnorderedBooksUntouched(books: map<BookId, Book>, cart: seq<CartLine>, b: BookId)
    requires b in books
    requires forall i :: 0 <= i < |cart| ==> cart[i].bookId != b
    ensures Deducted(books, cart)[b] == books[b]
  {
    OrderedUnnamed(cart, b);
  }

  /** Stock never goes negative: every book a placeable cart names is left with stock >= 0. */
  lemma PlacementKeepsStockNonNegative(books: map<BookId, Book>, cart: seq<CartLine>)
    requires Fulfillable(books, cart)
    ensures forall i :: 0 <= i < |cart| ==> Deducted(books, cart)[cart[i].bookId].stockQuantity >= 0
    ensures (forall b :: b in books ==> WellFormed(books[b])) ==>
      forall b :: b in books ==> WellFormed(Deducted(books, cart)[b])
  {
    forall b | b in books && books[b].stockQuantity >= 0
      ensures Deducted(books, cart)[b].stockQuantity >= 0
    {
      if forall i :: 0 <= i < |cart| ==> cart[i].bookId != b {
        OrderedUnnamed(cart, b);
      }
    }
  }

  /** Conservation of stock: what leaves each book's stock is exactly what the order's items record of it. */
  lemma {:induction false} StockConservation(books: map<BookId, Book>, cart: seq<CartLine>, b: BookId)
    requires forall i :: 0 <= i < |cart| ==> cart[i].bookId in books
    ensures ItemQuantity(Captured(books, cart), b) == Ordered(cart, b)
  {
    if cart != [] {
      StockConservation(books, cart[1..], b);
      assert Captured(books, cart)[1..] == Captured(books, cart[1..]);
    }
  }

  /**
   * With positive prices, a non-empty cart of positive quantities costs more than
   * nothing: the total satisfies the "Total must be greater than 0" constraint of Order.
   */
  lemma {:induction false} TotalPositive(books: map<BookId, Book>, cart: seq<CartLine>)
    requires forall i :: 0 <= i < |cart| ==> cart[i].bookId in books && cart[i].quantity > 0
    requires forall b :: b in books ==> books[b].price > 0
    ensures OrderTotal(Captured(books, cart)) >= 0
    ensures cart != [] ==> OrderTotal(Captured(books, cart)) > 0
  {
    if cart != [] {
      TotalPositive(books, cart[1..]);
      var items := Captured(books, cart);
      assert items[1..] == Captured(books, cart[1..]);
      assert items[0].price > 0 && items[0].quantity > 0;
      assert Subtotal(items[0]) > 0;
    }
  }

  // ---------------------------------------------------------------------------
  // The order view

  function ItemView(item: OrderItem): OrderItemView {
    OrderItemView(item.bookId, item.quantity, item.price, Subtotal(item))
  }

  function ItemViews(items: seq<OrderItem>): (r: seq<OrderItemView>)
    ensures |r| == |items|
    ensures forall i :: 0 <= i < |items| ==> r[i] == ItemView(items[i])
  {
    if items == [] then [] else [ItemView(items[0])] + ItemViews(items[1..])
  }

  /** The sum of the reported subtotals. */
  function SumOfSubtotals(vs: seq<OrderItemView>): Cents {
    if vs == [] then 0 else vs[0].subtotal + SumOfSubtotals(vs[1..])
  }

  lemma {:induction false} SubtotalsAddUp(items: seq<OrderItem>)
    ensures SumOfSubtotals(ItemViews(items)) == OrderTotal(items)
  {
    if items != [] {
      SubtotalsAddUp(items[1..]);
      assert ItemViews(items)[1..] == ItemViews(items[1..]);
    }
  }

  /**
   * mapToDTO: each reported line carries its item's book, quantity and price and a
   * subtotal of price times quantity, in the order of the items; the reported total
   * is the stored one, which for an order whose total was computed at placement is
   * the sum of the reported subtotals.
   */
  function ToView(id: OrderId, o: Order, c: Customer): (v: OrderView)
    ensures v.id == id && v.customerId == o.customerId && v.totalAmount == o.totalAmount
    ensures v.customerName == c.firstName + " " + c.lastName
    ensures |v.items| == |o.items|
    ensures forall i :: 0 <= i < |o.items| ==>
      && v.items[i].bookId == o.items[i].bookId
      && v.items[i].quantity == o.items[i].quantity
      && v.items[i].price == o.items[i].price
      && v.items[i].subtotal == v.items[i].price * v.items[i].quantity
    ensures o.totalAmount == OrderTotal(o.items) ==> v.totalAmount == SumOfSubtotals(v.items)
  {
    SubtotalsAddUp(o.items);
    OrderView(id, o.customerId, c.firstName + " " + c.lastName, ItemViews(o.items), o.totalAmount)
  }
}
