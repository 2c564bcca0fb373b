/** The User record (src/user/models/userModel.go) and its validation tags. */
module UserModel {
  import opened Wrappers
  import opened Bson
  import opened Validation

  /**
   * A user document. The pointer fields of the Go struct are Options (None is a nil
   * pointer, a field absent from the request body). `id`, `userId`, `createdAt` and
   * `updatedAt` are filled by the server.
   */
  datatype User = User(
    id: ObjectId,
    userId: string,
    firstName: Option<string>,
    lastName: Option<string>,
    password: Option<string>,
    email: Option<string>,
    phone: Option<string>,
    createdAt: Time,
    updatedAt: Time)

  const NameMin: nat := 2
  const NameMax: nat := 100
  const PasswordMin: nat := 6

  /** The rules the tags of User state, field by field. */
  predicate Valid(u: User, isEmail: string -> bool)
  {
    && u.firstName.Some? && NameMin <= |u.firstName.value| <= NameMax
    && u.lastName.Some? && NameMin <= |u.lastName.value| <= NameMax
    && u.password.Some? && PasswordMin <= |u.password.value|
    && u.email.Some? && isEmail(u.email.value)
    && u.phone.Some?
  }

  /**
   * `validate.Struct(user)`: the fields that fail their tags, in declaration
   * order. The untagged fields ID, User_id, Created_at and Updated_at are never
   * reported.
   */
  function FieldErrors(u: User, isEmail: string -> bool): (errs: seq<FieldError>)
    ensures errs == [] <==> Valid(u, isEmail)
    ensures |errs| <= 5
    ensures forall e :: e in errs ==> e.field in {"First_name", "Last_name", "Password", "Email", "Phone"}
  {
    RequiredMinMax("First_name", u.firstName, NameMin, NameMax)
    + RequiredMinMax("Last_name", u.lastName, NameMin, NameMax)
    + RequiredMin("Password", u.password, PasswordMin)
    + EmailRequired("Email", u.email, isEmail)
    + Required("Phone", u.phone)
  }

  /** The server-filled fields carry no validation. */
  lemma ServerFieldsUnchecked(u: User, isEmail: string -> bool, id: ObjectId, userId: string, createdAt: Time, updatedAt: Time)
    ensures FieldErrors(u.(id := id, userId := userId, createdAt := createdAt, updatedAt := updatedAt), isEmail)
            == FieldErrors(u, isEmail)
  {
  }

  /** The phone number only has to be present: any value, the empty one included, passes. */
  lemma PhoneUnconstrained(u: User, isEmail: string -> bool, phone: string)
    requires Valid(u, isEmail)
    ensures Valid(u.(phone := Some(phone)), isEmail)
    ensures FieldErrors(u.(phone := None), isEmail) == [FieldError("Phone", "required")]
  {
  }

  /** The password has a minimum length and no maximum. */
  lemma PasswordUnbounded(u: User, isEmail: string -> bool, longer: string)
    requires Valid(u, isEmail)
    ensures Valid(u.(password := Some(u.password.value + longer)), isEmail)
  {
  }
}
