/**
 * The book entity, its transfer object, the entity/DTO mappings of the book
 * service, and the case-insensitive containment test of the repository's
 * "ContainingIgnoreCase" queries.
 */
module Books {
  import opened Common

  type BookId = int

  /** A price in whole cents: the source's BigDecimal with two fractional digits. */
  type Cents = int

  /** A persisted book, without its id (the id is the key of the book table). */
  datatype Book = Book(
    title: string,
    author: string,
    isbn: string,
    category: string,
    price: Cents,
    stockQuantity: int,
    description: string)

  /** BookDTO: the book as the API sends and receives it; `id` is absent on creation. */
  datatype BookDTO = BookDTO(
    id: Option<BookId>,
    title: string,
    author: string,
    isbn: string,
    category: string,
    price: Cents,
    stockQuantity: int,
    description: string)

  /** The bean constraints declared on BookDTO's price and stock: price > 0 and stock >= 0. */
  predicate WellFormed(b: Book) {
    b.price > 0 && b.stockQuantity >= 0
  }

  /** mapToDTO: every field of the stored book, with the id it is stored under. */
  function ToDTO(id: BookId, b: Book): BookDTO {
    BookDTO(Some(id), b.title, b.author, b.isbn, b.category, b.price, b.stockQuantity, b.description)
  }

  /**
   * mapToEntity: builds the entity from the DTO, dropping the DTO's id (the store
   * assigns one). Mapping back under any id gives the DTO again with that id.
   */
  function FromDTO(d: BookDTO): (b: Book)
    ensures forall id :: ToDTO(id, b) == d.(id := Some(id))
  {
    Book(d.title, d.author, d.isbn, d.category, d.price, d.stockQuantity, d.description)
  }

  /**
   * The setters of updateBook: title, author, isbn, price, stock and description
   * come from the DTO; the category is never copied. The result is what creating
   * a book from the DTO would give, except that the old category stays.
   */
  function Overwrite(b: Book, d: BookDTO): (r: Book)
    ensures r == FromDTO(d).(category := b.category)
    ensures r.category == b.category
  {
    b.(title := d.title, author := d.author, isbn := d.isbn, price := d.price,
       stockQuantity := d.stockQuantity, description := d.description)
  }

  /** mapToDTO carries the id it is given, and mapping the DTO back to an entity gives the stored book again. */
  lemma ToDTOKeepsEntity(id: BookId, b: Book)
    ensures ToDTO(id, b).id == Some(id)
    ensures FromDTO(ToDTO(id, b)) == b
  {
  }

  /** A DTO that reports a stored book exactly: its id is a key of the table and every field matches. */
  predicate Reports(books: map<BookId, Book>, d: BookDTO) {
    d.id.Some? && d.id.value in books && d == ToDTO(d.id.value, books[d.id.value])
  }

  /** ASCII upper-casing of one character, as SQL's UPPER does on ASCII text. */
  function UpperChar(c: char): (u: char)
    ensures 'a' <= c <= 'z' ==> u as int == c as int - 32
    ensures !('a' <= c <= 'z') ==> u == c
    ensures !('a' <= u <= 'z')
  {
    if 'a' <= c <= 'z' then (c as int - 32) as char else c
  }

  function Upper(s: string): (r: string)
    ensures |r| == |s|
    ensures forall i :: 0 <= i < |s| ==> r[i] == UpperChar(s[i])
  {
    if s == [] then [] else [UpperChar(s[0])] + Upper(s[1..])
  }

  /** `t` occurs in `s` starting at position `k`. */
  predicate OccursAt(t: string, s: string, k: int) {
    0 <= k && k + |t| <= |s| && s[k..k + |t|] == t
  }

  /** `t` occurs in `s` as a contiguous piece. */
  predicate IsInfix(t: string, s: string) {
    exists k :: 0 <= k <= |s| - |t| && OccursAt(t, s, k)
  }

  /**
   * The "ContainingIgnoreCase" query: `s` contains `t` once both are upper-cased.
   * A match is never longer than the field, and the empty query matches every field.
   */
  predicate ContainsIgnoreCase(s: string, t: string): (r: bool)
    ensures r ==> |t| <= |s|
    ensures t == [] ==> r
  {
    assert OccursAt(Upper([]), Upper(s), 0);
    IsInfix(Upper(t), Upper(s))
  }

  /** Upper-casing twice is upper-casing once. */
  lemma {:induction false} UpperIdempotent(s: string)
    ensures Upper(Upper(s)) == Upper(s)
  {
    var u := Upper(s);
    assert forall i :: 0 <= i < |s| ==> Upper(u)[i] == UpperChar(u[i]) == u[i];
  }

  /** A field that contains the query verbatim contains it ignoring case. */
  lemma InfixIsContained(s: string, t: string)
    requires IsInfix(t, s)
    ensures ContainsIgnoreCase(s, t)
  {
    var k :| 0 <= k <= |s| - |t| && OccursAt(t, s, k);
    var us, ut := Upper(s), Upper(t);
    forall i | 0 <= i < |t|
      ensures us[k..k + |t|][i] == ut[i]
    {
      assert s[k..k + |t|][i] == t[i];
    }
    assert OccursAt(ut, us, k);
  }

  /** The case of the field does not matter: a field and its upper-cased form match the same queries. */
  lemma ContainsIgnoresFieldCase(s: string, t: string)
    ensures ContainsIgnoreCase(Upper(s), t) <==> ContainsIgnoreCase(s, t)
  {
    UpperIdempotent(s);
  }

  /** The case of the query does not matter: a query and its upper-cased form find the same books. */
  lemma ContainsIgnoresQueryCase(s: string, t: string)
    ensures ContainsIgnoreCase(s, t) <==> ContainsIgnoreCase(s, Upper(t))
  {
    UpperIdempotent(t);
  }
}
