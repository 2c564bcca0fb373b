/**
 * The customer service (src/customer/modules/customerModules.go). Every call that
 * names an owning user, except the deletions, first probes the user repository
 * for that user and stops there when the probe fails.
 */
module CustomerModules {
  import opened Wrappers
  import opened Bson
  import opened Collection
  import opened CustomerModel
  import opened CustomerMongo
  import opened Envelope
  import UserModel
  import UserMongo

  const MsgOwnerMissing: string := "The user associated with customer is not present or is deleted"
  const MsgNotCreated: string := "Customer item was not created"
  const MsgAdded: string := "Customer Added Successfully"
  const MsgNotFound: string := "Customer not found or is already deleted"
  const MsgUpdateFailed: string := "Customer update failed"
  const MsgUpdated: string := "Customer updated successfully"
  const MsgDeleteFailed: string := "Failed to delete customer"
  const MsgDeleted: string := "Customer deleted successfully"

  /** Some stored user has this `user_id`. */
  predicate OwnerPresent(users: seq<UserModel.User>, userId: string)
  {
    exists i :: 0 <= i < |users| && users[i].userId == userId
  }

  /** The error the owner probe (GetUserByUserId) returns; None when it finds the user. */
  function ProbeError(users: seq<UserModel.User>, userId: string, fault: Option<Fault>): (err: Option<string>)
    ensures err.None? <==> fault.None? && OwnerPresent(users, userId)
    ensures fault.None? && err.Some? ==> err.value == ErrNoDocuments
  {
    if fault.Some? then Some(fault.value.msg)
    else if OwnerPresent(users, userId) then None
    else Some(ErrNoDocuments)
  }

  /** The reply to a failed owner probe. */
  function ProbeFailed(err: string): Outcome
  {
    Reply(Response(StatusInternalServerError, MsgOwnerMissing, err, Null), Some(err))
  }

  /** Every stored customer belongs to a stored user. */
  ghost predicate OwnersExist(users: seq<UserModel.User>, customers: seq<Customer>)
  {
    forall k :: 0 <= k < |customers| ==> OwnerPresent(users, customers[k].userId)
  }

  /** Appending a customer whose owner is present keeps every owner present. */
  lemma OwnersExistAfterInsert(users: seq<UserModel.User>, customers: seq<Customer>, c: Customer)
    requires OwnerPresent(users, c.userId)
    ensures OwnersExist(users, customers) ==> OwnersExist(users, customers + [c])
  {
  }

  /** Replacing a customer by one with the same owner keeps every owner present. */
  lemma OwnersExistAfterPatch(users: seq<UserModel.User>, customers: seq<Customer>, i: nat, v: Customer)
    requires i < |customers| && v.userId == customers[i].userId
    ensures OwnersExist(users, customers) ==> OwnersExist(users, customers[i := v])
  {
  }

  /** Removing customers keeps every owner present. */
  lemma {:induction false} OwnersExistAfterRemove(users: seq<UserModel.User>, customers: seq<Customer>, rest: seq<Customer>)
    requires multiset(rest) <= multiset(customers)
    ensures OwnersExist(users, customers) ==> OwnersExist(users, rest)
  {
    if OwnersExist(users, customers) {
      forall k | 0 <= k < |rest| ensures OwnerPresent(users, rest[k].userId) {
        assert rest[k] in multiset(rest);
        assert rest[k] in customers;
        var j :| 0 <= j < |customers| && customers[j] == rest[k];
      }
    }
  }

  /** The document AddCustomerByUserId inserts: the owner from the path and the drawn server fields. */
  function Stamped(customer: Customer, userId: string, drawn: Fresh): (r: Customer)
    ensures r.firstName == customer.firstName && r.lastName == customer.lastName
    ensures r.userId == userId && r.customerId == drawn.uuid && r.id == drawn.objectId
    ensures r.createdAt == drawn.createdAt && r.updatedAt == drawn.updatedAt
  {
    customer.(createdAt := drawn.createdAt, updatedAt := drawn.updatedAt, id := drawn.objectId,
              customerId := drawn.uuid, userId := userId)
  }

  /** What a partial update means: supplied names replace the stored ones, updated_at is refreshed. */
  function Patched(c: Customer, body: Customer, at: Time): Customer
  {
    c.(firstName := if body.firstName.Some? then body.firstName else c.firstName,
       lastName := if body.lastName.Some? then body.lastName else c.lastName,
       updatedAt := at)
  }

  /** Applying the update document UpdateCustomerByCustomerId builds is exactly the partial update. */
  lemma ApplyUpdateDocument(c: Customer, body: Customer, at: Time)
    ensures ApplySet(c, UpdateDocument(body.firstName, body.lastName, at)) == Patched(c, body, at)
  {
    var doc := UpdateDocument(body.firstName, body.lastName, at);
    var tail := [SetUpdatedAt(at)];
    var named := c.(firstName := if body.firstName.Some? then body.firstName else c.firstName,
                    lastName := if body.lastName.Some? then body.lastName else c.lastName);
    assert ApplySet(named, tail) == Patched(c, body, at) by {
      assert tail[1..] == [];
    }
    if body.firstName.Some? && body.lastName.Some? {
      assert doc[1..] == [SetLastName(body.lastName.value)] + tail;
      assert doc[1..][1..] == tail;
    } else if body.firstName.Some? {
      assert doc[1..] == tail;
      assert ApplySet(c, doc) == ApplySet(c.(firstName := body.firstName), tail);
    } else if body.lastName.Some? {
      assert doc[1..] == tail;
      assert ApplySet(c, doc) == ApplySet(c.(lastName := body.lastName), tail);
    } else {
      assert doc == tail;
    }
  }

  class CustomerService {
    const customers: CustomerRepository
    const users: UserMongo.UserRepository

    constructor (customers: CustomerRepository, users: UserMongo.UserRepository)
      ensures this.customers == customers && this.users == users
    {
      this.customers := customers;
      this.users := users;
    }

    /** GetAllCustomers: one page of every customer; no owner probe. `page` is not used. */
    method GetAllCustomers(recordPerPage: int, page: int, startIndex: int, fault: Option<Fault>) returns (o: Outcome)
      modifies customers`calls
      ensures customers.calls == old(customers.calls) + [GetAllCustomersCall(startIndex, recordPerPage)]
      ensures fault.Some? ==>
                o == Reply(Response(StatusInternalServerError, MsgListError, fault.value.msg, Null), Some(fault.value.msg))
      ensures fault.None? ==> var listing := GroupPage(customers.customers, startIndex, recordPerPage);
                (listing.Err? ==> o == Reply(Response(StatusInternalServerError, MsgListError, listing.msg, Null), Some(listing.msg))) &&
                (listing.Ok? && listing.value != [] ==> o == Reply(Response(StatusOK, MsgListed, NoError, CustomerPages(listing.value)), None))
      ensures o.Reply? && o.response.message == MsgNoRecords <==> fault.None? && customers.customers == []
      ensures o.Reply? && o.response.message == MsgNoRecords ==> o == Reply(Response(StatusInternalServerError, MsgNoRecords, NoError, Null), None)
    {
      var result, err := customers.GetAllCustomers(startIndex, recordPerPage, fault);
      if err.Some? {
        return Reply(Response(StatusInternalServerError, MsgListError, err.value, Null), err);
      }
      if |result| == 0 {
        return Reply(Response(StatusInternalServerError, MsgNoRecords, NoError, Null), err);
      }
      o := Reply(Response(StatusOK, MsgListed, NoError, CustomerPages(result)), err);
    }

    /**
     * GetCustomersByUserId: probe the owner, then one page of the customers whose
     * `user_id` is `userId`. "No Records Found" exactly when the owner has none.
     */
    method GetCustomersByUserId(userId: string, recordPerPage: int, page: int, startIndex: int,
                                probeFault: Option<Fault>, fault: Option<Fault>) returns (o: Outcome)
      modifies users`calls, customers`calls
      ensures users.calls == old(users.calls) + [UserMongo.GetUserByUserIdCall(userId)]
      ensures ProbeError(users.users, userId, probeFault).Some? ==>
                o == ProbeFailed(ProbeError(users.users, userId, probeFault).value) &&
                customers.calls == old(customers.calls)
      ensures ProbeError(users.users, userId, probeFault).None? ==>
                customers.calls == old(customers.calls) + [GetCustomersByUserIdCall(userId, startIndex, recordPerPage)]
      ensures ProbeError(users.users, userId, probeFault).None? && fault.Some? ==>
                o == Reply(Response(StatusInternalServerError, MsgListError, fault.value.msg, Null), Some(fault.value.msg))
      ensures ProbeError(users.users, userId, probeFault).None? && fault.None? ==>
                var listing := GroupPage(Matching(customers.customers, Selector(OwnerIs(userId))), startIndex, recordPerPage);
                (listing.Err? ==> o == Reply(Response(StatusInternalServerError, MsgListError, listing.msg, Null), Some(listing.msg))) &&
                (listing.Ok? && listing.value != [] ==> o == Reply(Response(StatusOK, MsgListed, NoError, CustomerPages(listing.value)), None))
      ensures o.Reply? && o.response.message == MsgNoRecords <==>
                ProbeError(users.users, userId, probeFault).None? && fault.None? &&
                Count(customers.customers, Selector(OwnerIs(userId))) == 0
      ensures o.Reply? && o.response.status == StatusOK ==>
                o.response.data.CustomerPages? && |o.response.data.customerPages| == 1 &&
                var p := o.response.data.customerPages[0];
                p.totalCount == Count(customers.customers, Selector(OwnerIs(userId))) &&
                forall k :: 0 <= k < |p.items| ==> p.items[k].userId == userId
    {
      var owner := users.GetUserByUserId(userId, probeFault);
      if owner.Err? {
        return ProbeFailed(owner.msg);
      }
      var result, err := customers.GetCustomersByUserId(userId, startIndex, recordPerPage, fault);
      if err.Some? {
        return Reply(Response(StatusInternalServerError, MsgListError, err.value, Null), err);
      }
      if |result| == 0 {
        return Reply(Response(StatusInternalServerError, MsgNoRecords, NoError, Null), err);
      }
      assert GroupPage(Matching(customers.customers, Selector(OwnerIs(userId))), startIndex, recordPerPage).Ok?;
      o := Reply(Response(StatusOK, MsgListed, NoError, CustomerPages(result)), err);
    }

    /**
     * GetCustomerByCustomerId: probe the owner, then fetch by `customer_id` alone.
     * The customer found need not belong to `userId`.
     */
    method GetCustomerByCustomerId(userId: string, customerId: string, probeFault: Option<Fault>, fault: Option<Fault>)
      returns (o: Outcome)
      modifies users`calls, customers`calls
      ensures users.calls == old(users.calls) + [UserMongo.GetUserByUserIdCall(userId)]
      ensures ProbeError(users.users, userId, probeFault).Some? ==>
                o == ProbeFailed(ProbeError(users.users, userId, probeFault).value) &&
                customers.calls == old(customers.calls)
      ensures ProbeError(users.users, userId, probeFault).None? ==>
                customers.calls == old(customers.calls) + [GetCustomerByCustomerIdCall(customerId)]
      ensures ProbeError(users.users, userId, probeFault).None? && fault.Some? ==>
                o == Reply(Response(StatusInternalServerError, MsgFetchError, fault.value.msg, Null), Some(fault.value.msg))
      ensures ProbeError(users.users, userId, probeFault).None? && fault.None? &&
              Count(customers.customers, Selector(CustomerIdIs(customerId))) == 0 ==>
                o == Reply(Response(StatusInternalServerError, MsgFetchError, ErrNoDocuments, Null), Some(ErrNoDocuments))
      ensures ProbeError(users.users, userId, probeFault).None? && fault.None? &&
              Count(customers.customers, Selector(CustomerIdIs(customerId))) > 0 ==>
                var found := customers.customers[FirstMatch(customers.customers, Selector(CustomerIdIs(customerId))).value];
                found.customerId == customerId &&
                o == Reply(Response(StatusOK, MsgFetched, NoError, CustomerDoc(found)), None)
    {
      var owner := users.GetUserByUserId(userId, probeFault);
      if owner.Err? {
        return ProbeFailed(owner.msg);
      }
      var customer := customers.GetCustomerByCustomerId(customerId, fault);
      if customer.Err? {
        return Reply(Response(StatusInternalServerError, MsgFetchError, customer.msg, Null), Some(customer.msg));
      }
      o := Reply(Response(StatusOK, MsgFetched, NoError, CustomerDoc(customer.value)), None);
    }

    /**
     * AddCustomerByUserId: probe the owner, validate, stamp the server fields and
     * the owner from the path, insert. A validation failure reads the probe's nil
     * error and panics. After the probe the returned error is the probe's, nil.
     */
    method AddCustomerByUserId(userId: string, customer: Customer, drawn: Fresh,
                               probeFault: Option<Fault>, insertFault: Option<Fault>) returns (o: Outcome)
      modifies users`calls, customers
      ensures users.calls == old(users.calls) + [UserMongo.GetUserByUserIdCall(userId)]
      ensures OwnersExist(users.users, old(customers.customers)) ==> OwnersExist(users.users, customers.customers)
      ensures ProbeError(users.users, userId, probeFault).Some? ==>
                o == ProbeFailed(ProbeError(users.users, userId, probeFault).value) &&
                customers.calls == old(customers.calls) && customers.customers == old(customers.customers)
      ensures ProbeError(users.users, userId, probeFault).None? && !Valid(customer) ==>
                o == Panic(NilErrorDereference) &&
                customers.calls == old(customers.calls) && customers.customers == old(customers.customers)
      ensures ProbeError(users.users, userId, probeFault).None? && Valid(customer) ==>
                var stored := Stamped(customer, userId, drawn);
                customers.calls == old(customers.calls) + [AddCustomerCall(stored)] &&
                (!WriteApplies(insertFault) ==>
                   o == Reply(Response(StatusInternalServerError, MsgNotCreated, insertFault.value.msg, Null), None) &&
                   customers.customers == old(customers.customers)) &&
                (WriteApplies(insertFault) && IdTaken(old(customers.customers), drawn.objectId) ==>
                   o == Reply(Response(StatusInternalServerError, MsgNotCreated, ErrDuplicateId, Null), None) &&
                   customers.customers == old(customers.customers)) &&
                (WriteApplies(insertFault) && !IdTaken(old(customers.customers), drawn.objectId) ==>
                   customers.customers == old(customers.customers) + [stored] &&
                   o == if insertFault.None?
                        then Reply(Response(StatusOK, MsgAdded, NoError, Text("user_id: " + userId + " & customer_id: " + drawn.uuid)), None)
                        else Reply(Response(StatusInternalServerError, MsgNotCreated, insertFault.value.msg, Null), None))
    {
      var owner := users.GetUserByUserId(userId, probeFault);
      if owner.Err? {
        return ProbeFailed(owner.msg);
      }
      var validationErrors := FieldErrors(customer);
      if validationErrors != [] {
        // the branch reads err.Error() while err, the probe's error, is nil
        return Panic(NilErrorDereference);
      }
      var c := customer.(createdAt := drawn.createdAt);
      c := c.(updatedAt := drawn.updatedAt);
      c := c.(id := drawn.objectId);
      c := c.(customerId := drawn.uuid);
      c := c.(userId := userId);

      ghost var before := customers.customers;
      var insertErr := customers.AddCustomerToMongoDb(c, insertFault);
      OwnersExistAfterInsert(users.users, before, c);
      if insertErr.Some? {
        return Reply(Response(StatusInternalServerError, MsgNotCreated, insertErr.value, Null), None);
      }
      o := Reply(Response(StatusOK, MsgAdded, NoError, Text("user_id: " + c.userId + " & customer_id: " + c.customerId)), None);
    }

    /**
     * UpdateCustomerByCustomerId: probe the owner, then `$set` the supplied names
     * and a fresh `updated_at` (truncated to the second) on the first customer
     * with this `customer_id`, whoever owns it. ModifiedCount is read before `err`,
     * and UpdateOne hands back a nil result with every error, so any store error
     * after the probe panics.
     */
    method UpdateCustomerByCustomerId(userId: string, customerId: string, customer: Customer, now: Time,
                                      probeFault: Option<Fault>, fault: Option<Fault>) returns (o: Outcome)
      modifies users`calls, customers
      ensures users.calls == old(users.calls) + [UserMongo.GetUserByUserIdCall(userId)]
      ensures |customers.customers| == |old(customers.customers)|
      ensures OwnersExist(users.users, old(customers.customers)) ==> OwnersExist(users.users, customers.customers)
      ensures ProbeError(users.users, userId, probeFault).Some? ==>
                o == ProbeFailed(ProbeError(users.users, userId, probeFault).value) &&
                customers.calls == old(customers.calls) && customers.customers == old(customers.customers)
      ensures ProbeError(users.users, userId, probeFault).None? ==>
                customers.calls == old(customers.calls) +
                  [UpdateOneCall(CustomerIdIs(customerId), UpdateDocument(customer.firstName, customer.lastName, Rfc3339RoundTrip(now)))]
      ensures ProbeError(users.users, userId, probeFault).None? && fault.Some? ==> o == Panic(NilResultDereference)
      ensures ProbeError(users.users, userId, probeFault).None? && !WriteApplies(fault) ==>
                customers.customers == old(customers.customers)
      ensures ProbeError(users.users, userId, probeFault).None? && WriteApplies(fault) &&
              Count(old(customers.customers), Selector(CustomerIdIs(customerId))) == 0 ==>
                customers.customers == old(customers.customers) &&
                (fault.None? ==> o == Reply(Response(StatusNotFound, MsgNotFound, NoError, Null), None))
      ensures ProbeError(users.users, userId, probeFault).None? && WriteApplies(fault) &&
              Count(old(customers.customers), Selector(CustomerIdIs(customerId))) > 0 ==>
                var i := FirstMatch(old(customers.customers), Selector(CustomerIdIs(customerId))).value;
                var patched := Patched(old(customers.customers)[i], customer, Rfc3339RoundTrip(now));
                customers.customers == old(customers.customers)[i := patched] &&
                (fault.None? && patched == old(customers.customers)[i] ==>
                   o == Reply(Response(StatusNotFound, MsgNotFound, NoError, Null), None)) &&
                (fault.None? && patched != old(customers.customers)[i] ==>
                   o == Reply(Response(StatusOK, MsgUpdated, NoError, Updated(UpdateResult(1, 1, 0))), None))
    {
      var owner := users.GetUserByUserId(userId, probeFault);
      if owner.Err? {
        return ProbeFailed(owner.msg);
      }
      var updateObject: seq<SetField> := [];
      if customer.firstName.Some? {
        updateObject := updateObject + [SetFirstName(customer.firstName.value)];
      }
      if customer.lastName.Some? {
        updateObject := updateObject + [SetLastName(customer.lastName.value)];
      }
      var updatedAt := Rfc3339RoundTrip(now);
      updateObject := updateObject + [SetUpdatedAt(updatedAt)];
      assert updateObject == UpdateDocument(customer.firstName, customer.lastName, updatedAt);

      ghost var before := customers.customers;
      ghost var found := FirstMatch(before, Selector(CustomerIdIs(customerId)));
      if found.Some? {
        ApplyUpdateDocument(before[found.value], customer, updatedAt);
      }
      var result, err := customers.UpdateCustomerByCustomerId(CustomerIdIs(customerId), updateObject, fault);
      if found.Some? {
        OwnersExistAfterPatch(users.users, before, found.value, customers.customers[found.value]);
      }
      if result.None? {
        return Panic(NilResultDereference);
      }
      if result.value.modified == 0 {
        return Reply(Response(StatusNotFound, MsgNotFound, NoError, Null), err);
      }
      if err.Some? {
        // The "update failed" branch: a result is never handed back with an error.
        assert false;
      }
      o := Reply(Response(StatusOK, MsgUpdated, NoError, Updated(result.value)), err);
    }

    /** DeleteCustomerByCustomerId: delete the first customer with this `customer_id`; no owner probe, nil error always. */
    method DeleteCustomerByCustomerId(customerId: string, fault: Option<Fault>) returns (o: Outcome)
      modifies customers
      ensures customers.calls == old(customers.calls) + [DeleteOneCall(CustomerIdIs(customerId))]
      ensures o.Reply? && o.err == None
      ensures OwnersExist(users.users, old(customers.customers)) ==> OwnersExist(users.users, customers.customers)
      ensures fault.Some? ==> o.response == Response(StatusInternalServerError, MsgDeleteFailed, fault.value.msg, Null)
      ensures !WriteApplies(fault) ==> customers.customers == old(customers.customers)
      ensures WriteApplies(fault) && Count(old(customers.customers), Selector(CustomerIdIs(customerId))) == 0 ==>
                customers.customers == old(customers.customers) &&
                (fault.None? ==> o.response == Response(StatusNotFound, MsgNotFound, NoError, Null))
      ensures WriteApplies(fault) && Count(old(customers.customers), Selector(CustomerIdIs(customerId))) > 0 ==>
                customers.customers == RemoveAt(old(customers.customers),
                                                 FirstMatch(old(customers.customers), Selector(CustomerIdIs(customerId))).value) &&
                (fault.None? ==> o.response == Response(StatusOK, MsgDeleted, NoError, Text("customer_id: " + customerId)))
    {
      ghost var before := customers.customers;
      var result, err := customers.DeleteCustomerByCustomerId(customerId, CustomerIdIs(customerId), fault);
      OwnersExistAfterRemove(users.users, before, customers.customers);
      if err.Some? {
        return Reply(Response(StatusInternalServerError, MsgDeleteFailed, err.value, Null), None);
      }
      if result.value.deleted == 0 {
        return Reply(Response(StatusNotFound, MsgNotFound, NoError, Null), None);
      }
      o := Reply(Response(StatusOK, MsgDeleted, NoError, Text("customer_id: " + customerId)), None);
    }

    /** DeleteCustomersByUserId: delete every customer of `userId`; no owner probe, nil error always. */
    method DeleteCustomersByUserId(userId: string, fault: Option<Fault>) returns (o: Outcome)
      modifies customers
      ensures customers.calls == old(customers.calls) + [DeleteManyCall(OwnerIs(userId))]
      ensures o.Reply? && o.err == None
      ensures OwnersExist(users.users, old(customers.customers)) ==> OwnersExist(users.users, customers.customers)
      ensures fault.Some? ==> o.response == Response(StatusInternalServerError, MsgDeleteFailed, fault.value.msg, Null)
      ensures !WriteApplies(fault) ==> customers.customers == old(customers.customers)
      ensures WriteApplies(fault) ==>
                customers.customers == RemoveAll(old(customers.customers), Selector(OwnerIs(userId))) &&
                Count(customers.customers, Selector(OwnerIs(userId))) == 0
      ensures fault.None? && Count(old(customers.customers), Selector(OwnerIs(userId))) == 0 ==>
                o.response == Response(StatusNotFound, MsgNotFound, NoError, Null)
      ensures fault.None? && Count(old(customers.customers), Selector(OwnerIs(userId))) > 0 ==>
                o.response == Response(StatusOK, MsgDeleted, NoError, Text("user_id: " + userId))
    {
      ghost var before := customers.customers;
      var result, err := customers.DeleteCustomersByUserId(userId, OwnerIs(userId), fault);
      OwnersExistAfterRemove(users.users, before, customers.customers);
      if err.Some? {
        return Reply(Response(StatusInternalServerError, MsgDeleteFailed, err.value, Null), None);
      }
      if result.value.deleted == 0 {
        return Reply(Response(StatusNotFound, MsgNotFound, NoError, Null), None);
      }
      o := Reply(Response(StatusOK, MsgDeleted, NoError, Text("user_id: " + userId)), None);
    }
  }
}
