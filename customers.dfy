/**
 * The customer entity, its transfer object, the mappings of the customer service,
 * and the email-uniqueness rule the service enforces.
 */
module Customers {
  import opened Common

  type CustomerId = int

  /** A persisted customer, without its id (the key of the customer table) and its timestamps. */
  datatype Customer = Customer(
    firstName: string,
    lastName: string,
    email: string,
    phoneNumber: string,
    address: string)

  /** CustomerDTO: the customer as the API sends and receives it; `id` is absent on creation. */
  datatype CustomerDTO = CustomerDTO(
    id: Option<CustomerId>,
    firstName: string,
    lastName: string,
    email: string,
    phoneNumber: string,
    address: string)

  /** mapToDTO. */
  function ToDTO(id: CustomerId, c: Customer): CustomerDTO {
    CustomerDTO(Some(id), c.firstName, c.lastName, c.email, c.phoneNumber, c.address)
  }

  /**
   * mapToEntity, which is also what the five setters of updateCustomer leave in the
   * entity. Mapping back under any id gives the DTO again with that id.
   */
  function FromDTO(d: CustomerDTO): (c: Customer)
    ensures forall id :: ToDTO(id, c) == d.(id := Some(id))
  {
    Customer(d.firstName, d.lastName, d.email, d.phoneNumber, d.address)
  }

  /** mapToDTO carries the id it is given, and mapping the DTO back to an entity gives the stored customer again. */
  lemma ToDTOKeepsEntity(id: CustomerId, c: Customer)
    ensures ToDTO(id, c).id == Some(id)
    ensures FromDTO(ToDTO(id, c)) == c
  {
  }

  /**
   * findByEmail(email).isPresent(). The repository returns at most one row for an
   * email: while emails are unique, an email in use has exactly one holder.
   */
  predicate EmailInUse(customers: map<CustomerId, Customer>, email: string): (r: bool)
    ensures r && EmailsUnique(customers) ==>
      exists id :: id in customers && customers[id].email == email
        && forall j :: j in customers && customers[j].email == email ==> j == id
  {
    exists id :: id in customers && customers[id].email == email
  }

  /** No two customers share an email. */
  ghost predicate EmailsUnique(customers: map<CustomerId, Customer>) {
    forall i, j :: i in customers && j in customers && customers[i].email == customers[j].email ==> i == j
  }

  /** Adding a customer whose email nobody holds keeps emails unique (createCustomer). */
  lemma AddKeepsEmailsUnique(customers: map<CustomerId, Customer>, id: CustomerId, c: Customer)
    requires EmailsUnique(customers) && id !in customers
    requires !EmailInUse(customers, c.email)
    ensures EmailsUnique(customers[id := c])
  {
  }

  /**
   * Replacing a customer keeps emails unique when the new email is the customer's
   * own or held by nobody (the guard of updateCustomer).
   */
  lemma ReplaceKeepsEmailsUnique(customers: map<CustomerId, Customer>, id: CustomerId, c: Customer)
    requires EmailsUnique(customers) && id in customers
    requires c.email == customers[id].email || !EmailInUse(customers, c.email)
    ensures EmailsUnique(customers[id := c])
  {
  }

  /**
   * updateCustomer's guard, "the email differs from the current one and findByEmail
   * finds someone", holds exactly when ANOTHER customer holds the email; so keeping
   * one's own email always passes although findByEmail finds the customer itself.
   */
  lemma RenameGuardMeansTakenByAnother(customers: map<CustomerId, Customer>, id: CustomerId, email: string)
    requires EmailsUnique(customers) && id in customers
    ensures (email != customers[id].email && EmailInUse(customers, email))
        <==> (exists other :: other in customers && other != id && customers[other].email == email)
  {
  }
}
