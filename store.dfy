/**
 * The bookstore's database and its three services. The tables are maps from id
 * to record, the identity generators are counters, and every operation of the
 * book, customer and order services is a member of the class: the ones that
 * change the tables are methods, the lookups and searches are functions, except
 * FindCustomerByEmail, a method that changes nothing because it picks the one
 * customer holding the email.
 */
module Store {
  import opened Common
  import Books
  import Customers
  import opened Orders

  class Bookstore {
    var books: map<Books.BookId, Books.Book>
    var customers: map<Customers.CustomerId, Customers.Customer>
    var orders: map<OrderId, Order>
    /** The next value of each table's identity column. */
    var nextBookId: int
    var nextCustomerId: int
    var nextOrderId: int

    /**
     * Every id in use was handed out by its generator; no two customers share an
     * email; every order belongs to an existing customer (orders are removed with
     * their customer) and its total is the sum of its items' subtotals.
     */
    ghost predicate Valid()
      reads this
    {
      && (forall id :: id in books ==> id < nextBookId)
      && (forall id :: id in customers ==> id < nextCustomerId)
      && (forall id :: id in orders ==> id < nextOrderId)
      && Customers.EmailsUnique(customers)
      && (forall id :: id in orders ==> orders[id].customerId in customers)
      && (forall id :: id in orders ==> orders[id].totalAmount == OrderTotal(orders[id].items))
    }

    /** An empty database; identity columns start at 1. */
    constructor ()
      ensures Valid()
      ensures books == map[] && customers == map[] && orders == map[]
      ensures nextBookId == 1 && nextCustomerId == 1 && nextOrderId == 1
    {
      books, customers, orders := map[], map[], map[];
      nextBookId, nextCustomerId, nextOrderId := 1, 1, 1;
    }

    // -------------------------------------------------------------------------
    // Book service

    /** getBookById. */
    function GetBookById(id: Books.BookId): (r: Result<Books.BookDTO>)
      reads this
      ensures r.Ok? <==> id in books
      ensures r.Err? ==> r.error == NotFound(BookResource)
      ensures r.Ok? ==> r.value.id == Some(id) && Books.Reports(books, r.value)
    {
      if id in books then Ok(Books.ToDTO(id, books[id])) else Err(NotFound(BookResource))
    }

    /** getAllBooks: every stored book, once. */
    function GetAllBooks(): (r: set<Books.BookDTO>)
      reads this
      ensures forall id :: id in books ==> Books.ToDTO(id, books[id]) in r
      ensures forall d :: d in r ==> Books.Reports(books, d)
    {
      set id | id in books :: Books.ToDTO(id, books[id])
    }

    /**
     * createBook: stores the book under a fresh id and returns it; fetching it
     * by that id gives back every field of the DTO.
     */
    method CreateBook(dto: Books.BookDTO) returns (r: Books.BookDTO)
      requires Valid()
      modifies this
      ensures Valid()
      ensures old(nextBookId) !in old(books)
      ensures books == old(books)[old(nextBookId) := Books.FromDTO(dto)]
      ensures nextBookId == old(nextBookId) + 1
      ensures r == dto.(id := Some(old(nextBookId)))
      ensures GetBookById(old(nextBookId)) == Ok(r)
      ensures customers == old(customers) && orders == old(orders)
      ensures nextCustomerId == old(nextCustomerId) && nextOrderId == old(nextOrderId)
    {
      var id := nextBookId;
      var book := Books.FromDTO(dto);
      books := books[id := book];
      nextBookId := nextBookId + 1;
      r := Books.ToDTO(id, book);
    }

    /**
     * updateBook: an unknown id fails with not-found and changes nothing;
     * otherwise every field but the category is taken from the DTO, and no other
     * book changes.
     */
    method UpdateBook(id: Books.BookId, dto: Books.BookDTO) returns (r: Result<Books.BookDTO>)
      requires Valid()
      modifies this
      ensures Valid()
      ensures id !in old(books) ==> r == Err(NotFound(BookResource)) && books == old(books)
      ensures id in old(books) ==>
        && books == old(books)[id := Books.Overwrite(old(books)[id], dto)]
        && r == Ok(dto.(id := Some(id), category := old(books)[id].category))
        && GetBookById(id) == r
      ensures customers == old(customers) && orders == old(orders)
      ensures nextBookId == old(nextBookId) && nextCustomerId == old(nextCustomerId) && nextOrderId == old(nextOrderId)
    {
      if id !in books {
        return Err(NotFound(BookResource));
      }
      var book := Books.Overwrite(books[id], dto);
      books := books[id := book];
      r := Ok(Books.ToDTO(id, book));
    }

    /** deleteBook: an unknown id fails with not-found; otherwise exactly that book goes. */
    method DeleteBook(id: Books.BookId) returns (r: Result<()>)
      requires Valid()
      modifies this
      ensures Valid()
      ensures r.Ok? <==> id in old(books)
      ensures r.Err? ==> r.error == NotFound(BookResource)
      ensures books == old(books) - {id}
      ensures GetBookById(id) == Err(NotFound(BookResource))
      ensures customers == old(customers) && orders == old(orders)
      ensures nextBookId == old(nextBookId) && nextCustomerId == old(nextCustomerId) && nextOrderId == old(nextOrderId)
    {
      if id !in books {
        return Err(NotFound(BookResource));
      }
      books := books - {id};
      r := Ok(());
    }

    /** findBooksByAuthor (findByAuthorContainingIgnoreCase): the books whose author contains the argument, ignoring case. */
    function FindBooksByAuthor(author: string): (r: set<Books.BookDTO>)
      reads this
      ensures forall id :: id in books ==>
        (Books.ToDTO(id, books[id]) in r <==> Books.ContainsIgnoreCase(books[id].author, author))
      ensures forall d :: d in r ==> Books.Reports(books, d)
    {
      set id | id in books && Books.ContainsIgnoreCase(books[id].author, author) :: Books.ToDTO(id, books[id])
    }

    /** findBooksByTitle (findByTitleContainingIgnoreCase): the books whose title contains the argument, ignoring case. */
    function FindBooksByTitle(title: string): (r: set<Books.BookDTO>)
      reads this
      ensures forall id :: id in books ==>
        (Books.ToDTO(id, books[id]) in r <==> Books.ContainsIgnoreCase(books[id].title, title))
      ensures forall d :: d in r ==> Books.Reports(books, d)
    {
      set id | id in books && Books.ContainsIgnoreCase(books[id].title, title) :: Books.ToDTO(id, books[id])
    }

    /** searchByCategory: the books whose category is exactly the argument. */
    function SearchByCategory(category: string): (r: set<Books.BookDTO>)
      reads this
      ensures forall id :: id in books ==> (Books.ToDTO(id, books[id]) in r <==> books[id].category == category)
      ensures forall d :: d in r ==> Books.Reports(books, d)
    {
      set id | id in books && books[id].category == category :: Books.ToDTO(id, books[id])
    }

    /**
     * findByPriceRange: rejects a minimum above the maximum with invalid-argument;
     * otherwise the books priced between the bounds, both included (findByPriceBetween).
     */
    function FindByPriceRange(minPrice: Books.Cents, maxPrice: Books.Cents): (r: Result<set<Books.BookDTO>>)
      reads this
      ensures r.Err? <==> minPrice > maxPrice
      ensures r.Err? ==> r.error == InvalidArgument
      ensures r.Ok? ==> forall id :: id in books ==>
        (Books.ToDTO(id, books[id]) in r.value <==> minPrice <= books[id].price <= maxPrice)
      ensures r.Ok? ==> forall d :: d in r.value ==> Books.Reports(books, d)
    {
      if minPrice > maxPrice then Err(InvalidArgument)
      else Ok(set id | id in books && minPrice <= books[id].price <= maxPrice :: Books.ToDTO(id, books[id]))
    }

    /**
     * findLowStockBooks: rejects a negative threshold with invalid-argument;
     * otherwise the books with stock strictly below it (findByStockQuantityLessThan).
     */
    function FindLowStockBooks(threshold: int): (r: Result<set<Books.BookDTO>>)
      reads this
      ensures r.Err? <==> threshold < 0
      ensures r.Err? ==> r.error == InvalidArgument
      ensures r.Ok? ==> forall id :: id in books ==>
        (Books.ToDTO(id, books[id]) in r.value <==> books[id].stockQuantity < threshold)
      ensures r.Ok? ==> forall d :: d in r.value ==> Books.Reports(books, d)
    {
      if threshold < 0 then Err(InvalidArgument)
      else Ok(set id | id in books && books[id].stockQuantity < threshold :: Books.ToDTO(id, books[id]))
    }

    // -------------------------------------------------------------------------
    // Customer service

    /** getCustomerById. */
    function GetCustomerById(id: Customers.CustomerId): (r: Result<Customers.CustomerDTO>)
      reads this
      ensures r.Ok? <==> id in customers
      ensures r.Err? ==> r.error == NotFound(CustomerResource)
      ensures r.Ok? ==> r.value == Customers.ToDTO(id, customers[id])
    {
      if id in customers then Ok(Customers.ToDTO(id, customers[id])) else Err(NotFound(CustomerResource))
    }

    /** getAllCustomers: every stored customer, once. */
    function GetAllCustomers(): (r: set<Customers.CustomerDTO>)
      reads this
      ensures forall id :: id in customers ==> Customers.ToDTO(id, customers[id]) in r
      ensures forall d :: d in r ==>
        d.id.Some? && d.id.value in customers && d == Customers.ToDTO(d.id.value, customers[d.id.value])
    {
      set id | id in customers :: Customers.ToDTO(id, customers[id])
    }

    /**
     * findCustomerByEmail: not-found when nobody holds the email; otherwise the
     * one customer who does.
     */
    method FindCustomerByEmail(email: string) returns (r: Result<Customers.CustomerDTO>)
      requires Valid()
      ensures r.Err? <==> !Customers.EmailInUse(customers, email)
      ensures r.Err? ==> r.error == NotFound(CustomerResource)
      ensures r.Ok? ==> r.value.email == email && r.value.id.Some?
      ensures r.Ok? ==> forall id :: id in customers && customers[id].email == email ==>
        r.value == Customers.ToDTO(id, customers[id])
    {
      if !Customers.EmailInUse(customers, email) {
        return Err(NotFound(CustomerResource));
      }
      var id :| id in customers && customers[id].email == email;
      r := Ok(Customers.ToDTO(id, customers[id]));
    }

    /**
     * createCustomer: an email already held by a customer fails with
     * invalid-argument and changes nothing; otherwise the customer is stored under
     * a fresh id. Emails stay unique either way.
     */
    method CreateCustomer(dto: Customers.CustomerDTO) returns (r: Result<Customers.CustomerDTO>)
      requires Valid()
      modifies this
      ensures Valid()
      ensures r.Err? <==> Customers.EmailInUse(old(customers), dto.email)
      ensures r.Err? ==> r.error == InvalidArgument && customers == old(customers)
      ensures r.Err? ==> nextCustomerId == old(nextCustomerId)
      ensures r.Ok? ==>
        && old(nextCustomerId) !in old(customers)
        && customers == old(customers)[old(nextCustomerId) := Customers.FromDTO(dto)]
        && nextCustomerId == old(nextCustomerId) + 1
        && r.value == dto.(id := Some(old(nextCustomerId)))
        && GetCustomerById(old(nextCustomerId)) == r
      ensures books == old(books) && orders == old(orders)
      ensures nextBookId == old(nextBookId) && nextOrderId == old(nextOrderId)
    {
      if Customers.EmailInUse(customers, dto.email) {
        return Err(InvalidArgument);
      }
      var id := nextCustomerId;
      var customer := Customers.FromDTO(dto);
      Customers.AddKeepsEmailsUnique(customers, id, customer);
      customers := customers[id := customer];
      nextCustomerId := nextCustomerId + 1;
      r := Ok(Customers.ToDTO(id, customer));
    }

    /**
     * updateCustomer: an unknown id fails with not-found; a new email that another
     * customer holds fails with invalid-argument; keeping one's own email always
     * passes. On success the five fields come from the DTO and no other customer
     * changes; on failure nothing changes.
     */
    method UpdateCustomer(id: Customers.CustomerId, dto: Customers.CustomerDTO) returns (r: Result<Customers.CustomerDTO>)
      requires Valid()
      modifies this
      ensures Valid()
      ensures id !in old(customers) ==> r == Err(NotFound(CustomerResource))
      ensures id in old(customers) ==>
        (r.Err? <==> exists other :: other in old(customers) && other != id && old(customers)[other].email == dto.email)
      ensures id in old(customers) && r.Err? ==> r.error == InvalidArgument
      ensures id in old(customers) && dto.email == old(customers)[id].email ==> r.Ok?
      ensures r.Err? ==> customers == old(customers)
      ensures r.Ok? ==>
        && customers == old(customers)[id := Customers.FromDTO(dto)]
        && r.value == dto.(id := Some(id))
        && GetCustomerById(id) == r
      ensures books == old(books) && orders == old(orders)
      ensures nextBookId == old(nextBookId) && nextCustomerId == old(nextCustomerId) && nextOrderId == old(nextOrderId)
    {
      if id !in customers {
        return Err(NotFound(CustomerResource));
      }
      Customers.RenameGuardMeansTakenByAnother(customers, id, dto.email);
      if customers[id].email != dto.email && Customers.EmailInUse(customers, dto.email) {
        return Err(InvalidArgument);
      }
      var customer := Customers.FromDTO(dto);
      Customers.ReplaceKeepsEmailsUnique(customers, id, customer);
      customers := customers[id := customer];
      r := Ok(Customers.ToDTO(id, customer));
    }

    /**
     * deleteCustomer: an unknown id fails with not-found; otherwise the customer
     * goes and, by cascade, every order of theirs, and no other order.
     */
    method DeleteCustomer(id: Customers.CustomerId) returns (r: Result<()>)
      requires Valid()
      modifies this
      ensures Valid()
      ensures r.Ok? <==> id in old(customers)
      ensures r.Err? ==> r.error == NotFound(CustomerResource) && orders == old(orders)
      ensures customers == old(customers) - {id}
      ensures forall o :: o in orders ==> orders[o].customerId != id
      ensures forall o :: o in old(orders) && old(orders)[o].customerId != id ==> o in orders && orders[o] == old(orders)[o]
      ensures forall o :: o in orders ==> o in old(orders)
      ensures books == old(books)
      ensures nextBookId == old(nextBookId) && nextCustomerId == old(nextCustomerId) && nextOrderId == old(nextOrderId)
    {
      if id !in customers {
        return Err(NotFound(CustomerResource));
      }
      customers := customers - {id};
      orders := map o | o in orders && orders[o].customerId != id :: orders[o];
      r := Ok(());
    }

    // -------------------------------------------------------------------------
    // Order service

    /** mapToDTO of an order, with its customer's name. */
    function ViewOf(id: OrderId): OrderView
      reads this
      requires Valid() && id in orders
    {
      ToView(id, orders[id], customers[orders[id].customerId])
    }

    /** getOrderById: not-found for an unknown id; the reported total is the sum of the reported subtotals. */
    function GetOrderById(id: OrderId): (r: Result<OrderView>)
      reads this
      requires Valid()
      ensures r.Ok? <==> id in orders
      ensures r.Err? ==> r.error == NotFound(OrderResource)
      ensures r.Ok? ==> r.value.id == id && r.value.customerId == orders[id].customerId
      ensures r.Ok? ==> r.value.totalAmount == orders[id].totalAmount == SumOfSubtotals(r.value.items)
      ensures r.Ok? ==> r.value == ViewOf(id)
    {
      if id in orders then Ok(ViewOf(id)) else Err(NotFound(OrderResource))
    }

    /** getAllOrders. */
    function GetAllOrders(): (r: set<OrderView>)
      reads this
      requires Valid()
      ensures forall id :: id in orders ==> ViewOf(id) in r
      ensures forall v :: v in r ==> v.id in orders && v == ViewOf(v.id)
    {
      set id | id in orders :: ViewOf(id)
    }

    /** getCustomerOrders: not-found for an unknown customer; otherwise exactly that customer's orders. */
    function GetCustomerOrders(customerId: Customers.CustomerId): (r: Result<set<OrderView>>)
      reads this
      requires Valid()
      ensures r.Ok? <==> customerId in customers
      ensures r.Err? ==> r.error == NotFound(CustomerResource)
      ensures r.Ok? ==> forall id :: id in orders ==> (ViewOf(id) in r.value <==> orders[id].customerId == customerId)
      ensures r.Ok? ==> forall v :: v in r.value ==> v.id in orders && v == ViewOf(v.id) && v.customerId == customerId
    {
      if customerId !in customers then Err(NotFound(CustomerResource))
      else Ok(set id | id in orders && orders[id].customerId == customerId :: ViewOf(id))
    }

    /**
     * The loop of createOrder over the cart. Each line in turn is checked
     * (positive quantity, existing book, enough stock left), taken out of stock in
     * place, and turned into an item at the book's current price, while the total
     * accumulates. The first failing line stops the loop and the transaction rolls
     * back: the book table is as it was on entry. Otherwise the items and the total
     * are returned and the stock stays lowered. Either way the outcome is the one
     * `Run` defines from the table on entry.
     */
    method TakeLines(cart: seq<CartLine>) returns (r: Result<(seq<OrderItem>, Books.Cents)>)
      modifies this
      ensures r.Err? ==> books == old(books) && Run(Progress(old(books), [], 0), cart) == Err(r.error)
      ensures r.Ok? ==> Run(Progress(old(books), [], 0), cart) == Ok(Progress(books, r.value.0, r.value.1))
      ensures customers == old(customers) && orders == old(orders)
      ensures nextBookId == old(nextBookId) && nextCustomerId == old(nextCustomerId) && nextOrderId == old(nextOrderId)
    {
      // The transaction's view of the book table before any change; restored on rollback.
      var snapshot := books;
      ghost var start := Progress(snapshot, [], 0);
      var orderItems: seq<OrderItem> := [];
      var totalAmount: Books.Cents := 0;
      var i := 0;
      while i < |cart|
        invariant 0 <= i <= |cart|
        invariant Run(start, cart) == Run(Progress(books, orderItems, totalAmount), cart[i..])
        invariant customers == old(customers) && orders == old(orders)
        invariant nextBookId == old(nextBookId) && nextCustomerId == old(nextCustomerId)
        invariant nextOrderId == old(nextOrderId)
      {
        var line := cart[i];
        ghost var here := Progress(books, orderItems, totalAmount);
        RunUnfolds(here, cart[i..]);
        assert cart[i..][0] == line && cart[i..][1..] == cart[i + 1..];
        if line.quantity <= 0 {
          books := snapshot;
          return Err(OrderValidation);
        }
        if line.bookId !in books {
          books := snapshot;
          return Err(NotFound(BookResource));
        }
        var book := books[line.bookId];
        if book.stockQuantity < line.quantity {
          books := snapshot;
          return Err(InvalidArgument);
        }
        books := books[line.bookId := book.(stockQuantity := book.stockQuantity - line.quantity)];
        orderItems := orderItems + [OrderItem(line.bookId, line.quantity, book.price)];
        totalAmount := totalAmount + book.price * line.quantity;
        i := i + 1;
      }
      assert cart[i..] == [];
      r := Ok((orderItems, totalAmount));
    }

    /**
     * createOrder, one transaction. An unknown customer fails with not-found
     * before the cart is looked at; an empty cart fails with order-validation.
     * Then the lines are taken out of stock one by one; the first failing line
     * fails the call and the transaction rolls back: on any failure nothing in the
     * database has changed. On success the stock of each book has dropped by the
     * quantity the cart asks for of it, and a PENDING order is stored whose items
     * are the lines in order and whose total is the sum of their subtotals.
     */
    method CreateOrder(customerId: Customers.CustomerId, cart: seq<CartLine>) returns (r: Result<OrderView>)
      requires Valid()
      modifies this
      ensures Valid()
      ensures customerId !in old(customers) ==> r == Err(NotFound(CustomerResource))
      ensures customerId in old(customers) && cart == [] ==> r == Err(OrderValidation)
      ensures customerId in old(customers) && cart != [] ==> (r.Ok? <==> Fulfillable(old(books), cart))
      ensures customerId in old(customers) && cart != [] && r.Err? ==>
        exists i ::
          && 0 <= i < |cart|
          && Fulfillable(old(books), cart[..i])
          && LineCheck(Deducted(old(books), cart[..i]), cart[i]) == Some(r.error)
      ensures r.Err? ==> books == old(books) && orders == old(orders) && nextOrderId == old(nextOrderId)
      ensures r.Ok? ==>
        && Fulfillable(old(books), cart)
        && books == Deducted(old(books), cart)
        && old(nextOrderId) !in old(orders)
        && orders == old(orders)[old(nextOrderId) :=
             Order(customerId, OrderTotal(Captured(old(books), cart)), Pending, Captured(old(books), cart))]
        && nextOrderId == old(nextOrderId) + 1
        && r == GetOrderById(old(nextOrderId))
      ensures customers == old(customers)
      ensures nextBookId == old(nextBookId) && nextCustomerId == old(nextCustomerId)
    {
      if customerId !in customers {
        return Err(NotFound(CustomerResource));
      }
      if cart == [] {
        return Err(OrderValidation);
      }
      ghost var before := books;
      ghost var start := Progress(before, [], 0);
      RunMeaning(start, cart);
      var taken := TakeLines(cart);
      if taken.Err? {
        RunFailsAtFirstBadLine(start, cart);
        return Err(taken.error);
      }
      var (orderItems, totalAmount) := taken.value;
      assert [] + Captured(before, cart) == Captured(before, cart);
      assert orderItems == Captured(before, cart);
      assert totalAmount == OrderTotal(orderItems);
      assert books.Keys == before.Keys;
      var id := nextOrderId;
      orders := orders[id := Order(customerId, totalAmount, Pending, orderItems)];
      nextOrderId := nextOrderId + 1;
      r := Ok(ViewOf(id));
    }
  }
}
