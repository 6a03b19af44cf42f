# Bookstore services, modelled in Dafny

This project models the service layer of a bookstore backend: the book,
customer and order services that sit between the REST controllers and the
database. The database is modelled as one object, `Store.Bookstore`. Its fields
are the three tables, each a map from id to record (`books`, `customers`,
`orders`), and the three identity generators (`nextBookId`, `nextCustomerId`,
`nextOrderId`). Every service operation is a member of that class. Operations
that change the tables are methods with `modifies this`. Lookups and searches
are functions that read the tables, except `FindCustomerByEmail`. It is a
method that changes nothing, because it picks the one customer holding the
email.

The modules follow the program's structure:

- `Common`: the error kinds the services throw, as a `Result` datatype.
  Not-found (`ResourceNotFoundException`, naming the resource) is one kind.
  Invalid-argument (`IllegalArgumentException`) is another. Order-validation
  (`OrderValidationException`) is the third.
- `Books`: the book entity and DTO, `mapToDTO`/`mapToEntity`, and the field
  overwrite done by `updateBook`. It also holds the case-insensitive containment
  used by the author and title searches.
- `Customers`: the customer entity and DTO, their mappings, and the
  email-uniqueness rule.
- `Orders`: the order-placement rules of `createOrder` as specification
  functions, the lemmas about them, and the order view built by `mapToDTO`.
- `Store`: the `Bookstore` class with every service operation.

`createOrder` is the core. Its checks and the storing of the order are
`CreateOrder`. Its `for` loop (`OrderServiceImpl.java:52-85`) is the method
`TakeLines`, which walks the cart in input order. For each line it checks the
line, lowers the book's stock in place in `books`, appends an item at the
book's current price, and adds to a running total. Any failure restores the
book table as it was on entry. This is how the model renders the class-level
`@Transactional` rollback. The loop is proved against `Orders.Run`, a
line-by-line definition of the same loop. The
lemma `Orders.RunMeaning` then relates `Run` to independent reference
definitions:

- `Fulfillable`: every quantity is positive, every book exists, and no book is
  ordered, over all lines, beyond its stock.
- `Deducted`: each book's stock is lowered by `Ordered`, the total quantity of
  that book in the cart.
- `Captured`: one item per line, in order, at the book's price at order time.
- `OrderTotal`: the sum of price times quantity over the items.

Prices are integer cents. The source's prices are `BigDecimal` values with two
fractional digits.

The service interface declares a second signature,
`createOrder(customerId, bookIds, quantities)` (`OrderService.java:8`). No
class implements it. The items-list form (`OrderServiceImpl.java:33`, called
from `OrderController.java:26-31`) is the one modelled. Note also that the
order view built by `mapToDTO` never sets the status. So
the PENDING status of a new order is stated about the stored order
(`orders[id].status`), not about the returned view.

## Model

| member | source | states |
|---|---|---|
| `Books.FromDTO` | src/main/java/com/wooseok/bookstore/service/BookServiceImpl.java:112-135 | mapToEntity followed by mapToDTO gives back the DTO field for field. Only the id changes, to the one the book is stored under. |
| `Books.Overwrite` | src/main/java/com/wooseok/bookstore/service/BookServiceImpl.java:49-54 | The update takes title, author, isbn, price, stock and description from the DTO and never touches category. The result equals a book created from the DTO, but with the old category. |
| `Books.UpperIdempotent` | src/main/java/com/wooseok/bookstore/repository/BookRepository.java:22 | Upper-casing twice is the same as upper-casing once. This is the folding used by the IgnoreCase queries. |
| `Books.ToDTOKeepsEntity` | src/main/java/com/wooseok/bookstore/service/BookServiceImpl.java:112-123 | mapToDTO reports the id the book is stored under. It loses no field: mapping the DTO back to an entity gives the stored book again. |
| `Books.ContainsIgnoreCase` | src/main/java/com/wooseok/bookstore/repository/BookRepository.java:22-26 | The ContainingIgnoreCase queries. A match is never longer than the field, and the empty query matches every field. |
| `Books.InfixIsContained` | src/main/java/com/wooseok/bookstore/repository/BookRepository.java:22-26 | A field that contains the query verbatim, as a contiguous piece, matches it. |
| `Books.ContainsIgnoresFieldCase` | src/main/java/com/wooseok/bookstore/repository/BookRepository.java:22-26 | The case of the stored field does not matter: a field and its upper-cased form match the same queries. |
| `Books.ContainsIgnoresQueryCase` | src/main/java/com/wooseok/bookstore/repository/BookRepository.java:26 | A query string and its upper-cased form match the same field values. |
| `Customers.FromDTO` | src/main/java/com/wooseok/bookstore/service/CustomerServiceImpl.java:84-102 | mapToEntity followed by mapToDTO preserves firstName, lastName, email, phoneNumber and address. Only the id is set, to the stored one. |
| `Customers.ToDTOKeepsEntity` | src/main/java/com/wooseok/bookstore/service/CustomerServiceImpl.java:84-93 | mapToDTO reports the id the customer is stored under. It loses no field: mapping the DTO back to an entity gives the stored customer again. |
| `Customers.EmailInUse` | src/main/java/com/wooseok/bookstore/service/CustomerServiceImpl.java:24 | `findByEmail(email).isPresent()`. While emails are unique, an email in use has exactly one holder. This is the single row that findByEmail's Optional returns. The update guard reuses it at line 54. |
| `Customers.AddKeepsEmailsUnique` | src/main/java/com/wooseok/bookstore/service/CustomerServiceImpl.java:24-30 | Adding a customer whose email nobody holds, under a fresh id, keeps every email unique. |
| `Customers.ReplaceKeepsEmailsUnique` | src/main/java/com/wooseok/bookstore/service/CustomerServiceImpl.java:53-65 | Replacing a customer keeps emails unique when the new email is the customer's own or held by nobody. |
| `Customers.RenameGuardMeansTakenByAnother` | src/main/java/com/wooseok/bookstore/service/CustomerServiceImpl.java:53-56 | When emails are unique, the update guard holds exactly when another customer holds the email. The guard is "differs from the current email and findByEmail finds someone". So keeping one's own email always passes. |
| `Orders.Deducted` | src/main/java/com/wooseok/bookstore/service/OrderServiceImpl.java:69-71 | The table after placement has the same books. Each book's stock is lowered by the total quantity the cart orders of it. |
| `Orders.Captured` | src/main/java/com/wooseok/bookstore/service/OrderServiceImpl.java:74-80 | There is one order item per cart line, in input order. Each item carries its line's book and quantity and the book's current price. |
| `Orders.LineCheckOrder` | src/main/java/com/wooseok/bookstore/service/OrderServiceImpl.java:54-67 | Fixes the error each line raises, in the source's order. A quantity of 0 or less raises order-validation, whatever the book. Otherwise a missing book raises not-found for Book. Otherwise too little stock raises invalid-argument. A line passing all three raises nothing. |
| `Orders.StepTakesOneLine` | src/main/java/com/wooseok/bookstore/service/OrderServiceImpl.java:53-84 | One iteration fails exactly when its line fails the checks, with that error. Otherwise it lowers the named book's stock by the quantity, to 0 or more, and touches no other book. It appends one item at the book's price and adds that item's subtotal to the total. |
| `Orders.RunSplits` | src/main/java/com/wooseok/bookstore/service/OrderServiceImpl.java:52-85 | The loop over a cart is the loop over any prefix followed, if the prefix passed, by the loop over the rest. A failure in the prefix is the failure of the whole. |
| `Orders.RunMeaning` | src/main/java/com/wooseok/bookstore/service/OrderServiceImpl.java:52-85 | The loop succeeds iff the cart is fulfillable: every quantity is positive, every book exists, and no book's summed quantity exceeds its stock. On success, stock is lowered by exactly the ordered quantities. The items are the captured lines. The total grows by the sum of their subtotals. |
| `Orders.RunFailsAtFirstBadLine` | src/main/java/com/wooseok/bookstore/service/OrderServiceImpl.java:52-67 | A failing loop fails at the first line that fails its checks against the stock left by the earlier lines. All earlier lines pass. The error is that line's error: order-validation for a quantity of 0 or less, not-found for a missing book, invalid-argument for too little stock. |
| `Orders.RepeatedBookSeesReducedStock` | src/main/java/com/wooseok/bookstore/service/OrderServiceImpl.java:59-70 | A book on two lines is checked the second time against the stock the first line left. Two lines that each fit the stock but together exceed it fail with invalid-argument. |
| `Orders.UnorderedBooksUntouched` | src/main/java/com/wooseok/bookstore/service/OrderServiceImpl.java:59-71 | A book no cart line names keeps every field after placement. |
| `Orders.PlacementKeepsStockNonNegative` | src/main/java/com/wooseok/bookstore/service/OrderServiceImpl.java:63-70 | Every book a placeable cart names ends with stock of 0 or more. A catalogue with positive prices and non-negative stock stays that way. |
| `Orders.StockConservation` | src/main/java/com/wooseok/bookstore/service/OrderServiceImpl.java:70-80 | For every book, the quantity that leaves stock equals the quantity the order's items record. |
| `Orders.TotalPositive` | src/main/java/com/wooseok/bookstore/service/OrderServiceImpl.java:83-84 | With positive prices, a non-empty cart of positive quantities has a total above 0. This meets the "Total must be greater than 0" constraint of Order. |
| `Orders.SubtotalsAddUp` | src/main/java/com/wooseok/bookstore/service/OrderServiceImpl.java:125-131 | The reported line subtotals add up to the order total computed at placement. |
| `Orders.ToView` | src/main/java/com/wooseok/bookstore/service/OrderServiceImpl.java:124-143 | The view has one line per item, in order, with book, quantity and price. Each subtotal is price times quantity. The customer name is "first last". For an order whose total was computed at placement, the reported total is the sum of the reported subtotals. |
| `Store.Bookstore.constructor` | src/main/java/com/wooseok/bookstore/model/Order.java:21-23 | An empty database satisfies the store invariant. Each identity generator starts beyond every id in use, so ids are handed out fresh. The same IDENTITY generation is declared for customers at Customer.java:21-23. |
| `Store.Bookstore.GetBookById` | src/main/java/com/wooseok/bookstore/service/BookServiceImpl.java:30-34 | Succeeds iff the id is stored, and then reports that book under that id. Otherwise it fails with not-found for Book. |
| `Store.Bookstore.GetAllBooks` | src/main/java/com/wooseok/bookstore/service/BookServiceImpl.java:37-41 | Every stored book is reported, and everything reported is a stored book. |
| `Store.Bookstore.CreateBook` | src/main/java/com/wooseok/bookstore/service/BookServiceImpl.java:23-27 | Stores the entity under a fresh id and returns the DTO with that id. Fetching that id gives back every field of the DTO. Nothing else changes. |
| `Store.Bookstore.UpdateBook` | src/main/java/com/wooseok/bookstore/service/BookServiceImpl.java:44-58 | An unknown id fails with not-found and changes nothing. Otherwise only that book changes, to the overwrite that keeps its category. The returned DTO is the one getBookById then reports. |
| `Store.Bookstore.DeleteBook` | src/main/java/com/wooseok/bookstore/service/BookServiceImpl.java:61-65 | Succeeds iff the id is stored. Exactly that book is removed, every other book stays, and a later lookup fails with not-found. |
| `Store.Bookstore.FindBooksByAuthor` | src/main/java/com/wooseok/bookstore/service/BookServiceImpl.java:68-72 | Reports exactly the stored books whose author contains the argument, ignoring case. |
| `Store.Bookstore.FindBooksByTitle` | src/main/java/com/wooseok/bookstore/service/BookServiceImpl.java:75-79 | Reports exactly the stored books whose title contains the argument, ignoring case. |
| `Store.Bookstore.SearchByCategory` | src/main/java/com/wooseok/bookstore/service/BookServiceImpl.java:82-87 | Reports exactly the stored books whose category equals the argument. |
| `Store.Bookstore.FindByPriceRange` | src/main/java/com/wooseok/bookstore/service/BookServiceImpl.java:90-98 | Fails with invalid-argument iff min > max. Otherwise it reports exactly the books with min <= price <= max, both bounds included. |
| `Store.Bookstore.FindLowStockBooks` | src/main/java/com/wooseok/bookstore/service/BookServiceImpl.java:101-109 | Fails with invalid-argument iff the threshold is negative. Otherwise it reports exactly the books whose stock is strictly below the threshold. |
| `Store.Bookstore.GetCustomerById` | src/main/java/com/wooseok/bookstore/service/CustomerServiceImpl.java:34-38 | Succeeds iff the id is stored. Otherwise it fails with not-found for Customer. |
| `Store.Bookstore.GetAllCustomers` | src/main/java/com/wooseok/bookstore/service/CustomerServiceImpl.java:41-45 | Every stored customer is reported, and everything reported is a stored customer. |
| `Store.Bookstore.FindCustomerByEmail` | src/main/java/com/wooseok/bookstore/service/CustomerServiceImpl.java:77-81 | Fails with not-found iff nobody holds the email. Otherwise it reports the customer who holds it, who is the only one by the uniqueness invariant. |
| `Store.Bookstore.CreateCustomer` | src/main/java/com/wooseok/bookstore/service/CustomerServiceImpl.java:22-31 | Fails with invalid-argument iff the email is already held. On failure no customer, the existing holder included, changes. Otherwise it stores the customer under a fresh id, and fetching it gives back the DTO. Emails stay unique. |
| `Store.Bookstore.UpdateCustomer` | src/main/java/com/wooseok/bookstore/service/CustomerServiceImpl.java:48-67 | An unknown id fails with not-found. An email held by another customer fails with invalid-argument, and keeping one's own email always succeeds. On success the five fields come from the DTO and no other customer changes. On failure nothing changes. Emails stay unique. |
| `Store.Bookstore.DeleteCustomer` | src/main/java/com/wooseok/bookstore/service/CustomerServiceImpl.java:70-74 | Succeeds iff the id is stored. It removes the customer and, by cascade, exactly that customer's orders. No remaining order references the id. |
| `Store.Bookstore.GetOrderById` | src/main/java/com/wooseok/bookstore/service/OrderServiceImpl.java:105-109 | Fails with not-found iff the id is unknown. Otherwise it reports the order through mapToDTO (`ToView`): its lines in order with price-times-quantity subtotals and the customer's "first last" name. The reported total is the stored total and the sum of the reported subtotals. |
| `Store.Bookstore.GetAllOrders` | src/main/java/com/wooseok/bookstore/service/OrderServiceImpl.java:97-102 | Every stored order is reported, and everything reported is a stored order. |
| `Store.Bookstore.GetCustomerOrders` | src/main/java/com/wooseok/bookstore/service/OrderServiceImpl.java:112-121 | An unknown customer fails with not-found. Otherwise it reports exactly the orders of that customer. |
| `Store.Bookstore.TakeLines` | src/main/java/com/wooseok/bookstore/service/OrderServiceImpl.java:52-85 | The loop ends exactly as `Orders.Run` defines from the table on entry. On failure the book table is back as it was, which is the rollback. On success the table holds the lowered stock, and the items and total are returned. Customers, orders and ids are untouched. |
| `Store.Bookstore.CreateOrder` | src/main/java/com/wooseok/bookstore/service/OrderServiceImpl.java:33-94 | An unknown customer fails with not-found before the cart is looked at. An empty cart fails with order-validation. Otherwise the call succeeds iff the cart is fulfillable, and a failure is the first bad line's error. On any failure, books, orders and ids are unchanged. On success, stock is lowered by exactly the ordered quantities, and a PENDING order with the captured items and their summed total is stored under a fresh id. The call returns what getOrderById then reports. |

## Left out

- HTTP controllers, the exception-to-status handler, timestamps (`createdAt`, `updatedAt`, `orderDate`) and the request path in error bodies: these are I/O and clock.
- Bean-validation and JPA constraints (sizes, patterns, `@DecimalMin`, `@Min`, unique columns) are not modelled as checks. The BookDTO constraints price > 0 (`BookDTO.java:36`) and stock >= 0 (`BookDTO.java:40`) are declared but never checked, because no controller marks its request body `@Valid`. So the store can hold books with price <= 0 or negative stock, and `Store.Bookstore.Valid` does not require `Books.WellFormed`. Price > 0 and stock >= 0 are hypotheses of `Orders.PlacementKeepsStockNonNegative` and `Orders.TotalPositive`, not store invariants. `TotalPositive` gives a positive order total only when every price in the catalogue is positive.
- Saving an order whose total is 0 or less breaks the `@DecimalMin` constraint on Order's total (`Order.java:31`), and the save fails. The model does not capture that failure: `CreateOrder` stores such an order, for example one for a book priced 0.
- The uniqueness of isbn is a database constraint that no service checks. A save that breaks it is not modelled.
- Deleting a book that order items still reference fails in the database through a foreign key. That is not modelled: `DeleteBook` removes the book, and the items keep its id.
- The book title in each reported order line is left out. The source reads it through a lazily loaded relation to the current book.
- Null inputs are not modelled: null ids, quantities, strings and prices. A null item list is rejected exactly like an empty one, so the model has only the empty list.
- Concurrency, isolation levels and races between concurrent placements on the same stock are left out. Each call runs alone.
- Prices are integer cents. `BigDecimal` values with more than two fractional digits are not modelled.
- Upper-casing is ASCII only. The database's case folding of other characters is not modelled.
- The order in which the repository returns rows is unspecified. Search and list results are therefore sets of DTOs. Each DTO carries its id, so no row is lost.
- `getAllOrders`, `getOrderById` and `getCustomerOrders` read orders through `mapToDTO`. The shipping address is not modelled, because no service sets it.
- `OrderService.createOrder(customerId, bookIds, quantities)`, declared at `OrderService.java:8`, is not modelled. It has no implementation. The implemented items-list form is modelled.
