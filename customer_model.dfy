/** The Customer record (src/customer/models/customerModel.go) and its validation tags. */
module CustomerModel {
  import opened Wrappers
  import opened Bson
  import opened Validation

  /**
   * A customer document: the owning user's `userId`, its own `customerId`, two
   * names and timestamps. It has no credential or contact field.
   */
  datatype Customer = Customer(
    id: ObjectId,
    userId: string,
    customerId: string,
    firstName: Option<string>,
    lastName: Option<string>,
    createdAt: Time,
    updatedAt: Time)

  const NameMin: nat := 2
  const NameMax: nat := 100

  /** The rules the tags of Customer state: only the two names are checked. */
  predicate Valid(c: Customer)
  {
    && c.firstName.Some? && NameMin <= |c.firstName.value| <= NameMax
    && c.lastName.Some? && NameMin <= |c.lastName.value| <= NameMax
  }

  /** `validate.Struct(customer)`: the failing fields, in declaration order. */
  function FieldErrors(c: Customer): (errs: seq<FieldError>)
    ensures errs == [] <==> Valid(c)
    ensures |errs| <= 2
    ensures forall e :: e in errs ==> e.field in {"First_name", "Last_name"}
  {
    RequiredMinMax("First_name", c.firstName, NameMin, NameMax)
    + RequiredMinMax("Last_name", c.lastName, NameMin, NameMax)
  }

  /** User_id, Customer_id, ID and the timestamps carry no validation. */
  lemma ServerFieldsUnchecked(c: Customer, id: ObjectId, userId: string, customerId: string, createdAt: Time, updatedAt: Time)
    ensures FieldErrors(c.(id := id, userId := userId, customerId := customerId, createdAt := createdAt, updatedAt := updatedAt))
            == FieldErrors(c)
  {
  }
}
