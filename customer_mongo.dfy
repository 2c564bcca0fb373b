/**
 * The customer repository (src/customer/dal/mongo/customerMongo.go) over an
 * in-memory collection, with the same call log as the user repository.
 */
module CustomerMongo {
  import opened Wrappers
  import opened Bson
  import opened Collection
  import opened CustomerModel

  /** The filters sent to the customer collection: on `customer_id` or on `user_id`. */
  datatype CustomerFilter = CustomerIdIs(customerId: string) | OwnerIs(userId: string)

  predicate Matches(f: CustomerFilter, c: Customer)
  {
    match f
    case CustomerIdIs(id) => c.customerId == id
    case OwnerIs(id) => c.userId == id
  }

  function Selector(f: CustomerFilter): Customer -> bool
  {
    c => Matches(f, c)
  }

  /** `$set` on one customer document: each entry overwrites its field, in order. */
  function ApplySet(c: Customer, doc: seq<SetField>): (r: Customer)
    ensures r.(firstName := c.firstName, lastName := c.lastName, updatedAt := c.updatedAt) == c
    ensures (forall i :: 0 <= i < |doc| ==> doc[i].SetUpdatedAt?) ==> r.firstName == c.firstName && r.lastName == c.lastName
    decreases |doc|
  {
    if doc == [] then c
    else
      var next := match doc[0]
        case SetFirstName(n) => c.(firstName := Some(n))
        case SetLastName(n) => c.(lastName := Some(n))
        case SetUpdatedAt(t) => c.(updatedAt := t);
      ApplySet(next, doc[1..])
  }

  /** One call made on the repository. */
  datatype CustomerCall =
    | GetAllCustomersCall(startIndex: int, recordPerPage: int)
    | GetCustomersByUserIdCall(userId: string, startIndex: int, recordPerPage: int)
    | GetCustomerByCustomerIdCall(customerId: string)
    | AddCustomerCall(customer: Customer)
    | UpdateOneCall(filter: CustomerFilter, doc: seq<SetField>)
    | DeleteOneCall(filter: CustomerFilter)
    | DeleteManyCall(filter: CustomerFilter)

  /** True iff some stored document already has this `_id`. */
  predicate IdTaken(customers: seq<Customer>, id: ObjectId)
  {
    exists i :: 0 <= i < |customers| && customers[i].id == id
  }

  class CustomerRepository {
    var customers: seq<Customer>
    ghost var calls: seq<CustomerCall>

    constructor (customers: seq<Customer>)
      ensures this.customers == customers && calls == []
    {
      this.customers := customers;
      calls := [];
    }

    /** GetAllCustomers: the listing pipeline over every customer. */
    method GetAllCustomers(startIndex: int, recordPerPage: int, fault: Option<Fault>)
      returns (cursor: seq<Page<Customer>>, err: Option<string>)
      modifies this`calls
      ensures calls == old(calls) + [GetAllCustomersCall(startIndex, recordPerPage)]
      ensures fault.Some? ==> cursor == [] && err == Some(fault.value.msg)
      ensures fault.None? && customers == [] ==> cursor == [] && err == None
      ensures fault.None? ==> var listing := GroupPage(customers, startIndex, recordPerPage);
                (listing.Ok? ==> cursor == listing.value && err == None) &&
                (listing.Err? ==> cursor == [] && err == Some(listing.msg))
    {
      calls := calls + [GetAllCustomersCall(startIndex, recordPerPage)];
      if fault.Some? {
        return [], Some(fault.value.msg);
      }
      var listing := GroupPage(customers, startIndex, recordPerPage);
      if listing.Err? {
        return [], Some(listing.msg);
      }
      cursor, err := listing.value, None;
    }

    /**
     * GetCustomersByUserId: the listing pipeline over the customers whose
     * `user_id` is `userId`; `total_count` counts only those.
     */
    method GetCustomersByUserId(userId: string, startIndex: int, recordPerPage: int, fault: Option<Fault>)
      returns (cursor: seq<Page<Customer>>, err: Option<string>)
      modifies this`calls
      ensures calls == old(calls) + [GetCustomersByUserIdCall(userId, startIndex, recordPerPage)]
      ensures fault.Some? ==> cursor == [] && err == Some(fault.value.msg)
      ensures fault.None? && Count(customers, Selector(OwnerIs(userId))) == 0 ==> cursor == [] && err == None
      ensures fault.None? ==> var listing := GroupPage(Matching(customers, Selector(OwnerIs(userId))), startIndex, recordPerPage);
                (listing.Ok? ==> cursor == listing.value && err == None) &&
                (listing.Err? ==> cursor == [] && err == Some(listing.msg))
      ensures |cursor| == 1 ==> cursor[0].totalCount == Count(customers, Selector(OwnerIs(userId)))
      ensures |cursor| == 1 ==> forall k :: 0 <= k < |cursor[0].items| ==> cursor[0].items[k].userId == userId
    {
      calls := calls + [GetCustomersByUserIdCall(userId, startIndex, recordPerPage)];
      if fault.Some? {
        return [], Some(fault.value.msg);
      }
      var owned := Matching(customers, Selector(OwnerIs(userId)));
      var listing := GroupPage(owned, startIndex, recordPerPage);
      if listing.Err? {
        return [], Some(listing.msg);
      }
      cursor, err := listing.value, None;
      if |cursor| == 1 {
        forall k | 0 <= k < |cursor[0].items| ensures cursor[0].items[k].userId == userId {
          var x := cursor[0].items[k];
          assert x == owned[SliceStart(|owned|, startIndex) + k];
          assert multiset(owned)[x] > 0;
        }
      }
    }

    /** GetCustomerByCustomerId: FindOne on `customer_id` alone; ErrNoDocuments when nothing matches. */
    method GetCustomerByCustomerId(customerId: string, fault: Option<Fault>) returns (r: Result<Customer>)
      modifies this`calls
      ensures calls == old(calls) + [GetCustomerByCustomerIdCall(customerId)]
      ensures fault.Some? ==> r == Err(fault.value.msg)
      ensures fault.None? ==> (r.Err? <==> forall i :: 0 <= i < |customers| ==> customers[i].customerId != customerId)
      ensures fault.None? && r.Err? ==> r.msg == ErrNoDocuments
      ensures r.Ok? ==> r.value in customers && r.value.customerId == customerId
      ensures r.Ok? ==> r.value == customers[FirstMatch(customers, Selector(CustomerIdIs(customerId))).value]
    {
      calls := calls + [GetCustomerByCustomerIdCall(customerId)];
      if fault.Some? {
        return Err(fault.value.msg);
      }
      var found := FirstMatch(customers, Selector(CustomerIdIs(customerId)));
      if found.None? {
        return Err(ErrNoDocuments);
      }
      r := Ok(customers[found.value]);
    }

    /** AddCustomerToMongoDb: InsertOne of the document as given; only a taken `_id` is refused. */
    method AddCustomerToMongoDb(customer: Customer, fault: Option<Fault>) returns (err: Option<string>)
      modifies this
      ensures calls == old(calls) + [AddCustomerCall(customer)]
      ensures !WriteApplies(fault) ==> err == Some(fault.value.msg) && customers == old(customers)
      ensures WriteApplies(fault) && IdTaken(old(customers), customer.id) ==> err == Some(ErrDuplicateId) && customers == old(customers)
      ensures WriteApplies(fault) && !IdTaken(old(customers), customer.id) ==> err == ErrorOf(fault) && customers == old(customers) + [customer]
    {
      calls := calls + [AddCustomerCall(customer)];
      if !WriteApplies(fault) {
        return Some(fault.value.msg);
      }
      if exists i :: 0 <= i < |customers| && customers[i].id == customer.id {
        return Some(ErrDuplicateId);
      }
      customers := customers + [customer];
      err := ErrorOf(fault);
    }

    /**
     * UpdateCustomerByCustomerId: non-upsert `$set` on the first document
     * matching `filter`. With any error the result is nil, even when the write
     * itself took effect.
     */
    method UpdateCustomerByCustomerId(filter: CustomerFilter, doc: seq<SetField>, fault: Option<Fault>)
      returns (result: Option<UpdateResult>, err: Option<string>)
      modifies this
      ensures calls == old(calls) + [UpdateOneCall(filter, doc)]
      ensures |customers| == |old(customers)|
      ensures err == ErrorOf(fault)
      ensures fault.Some? ==> result == None
      ensures !WriteApplies(fault) ==> customers == old(customers)
      ensures WriteApplies(fault) && Count(old(customers), Selector(filter)) == 0 ==>
                customers == old(customers) && (fault.None? ==> result == Some(UpdateResult(0, 0, 0)))
      ensures WriteApplies(fault) && Count(old(customers), Selector(filter)) > 0 ==>
                var i := FirstMatch(old(customers), Selector(filter)).value;
                var updated := ApplySet(old(customers)[i], doc);
                customers == old(customers)[i := updated] &&
                (fault.None? ==> result == Some(UpdateResult(1, if updated == old(customers)[i] then 0 else 1, 0)))
    {
      calls := calls + [UpdateOneCall(filter, doc)];
      err := ErrorOf(fault);
      if !WriteApplies(fault) {
        return None, err;
      }
      var found := FirstMatch(customers, Selector(filter));
      var matched, modified := 0, 0;
      if found.Some? {
        var i := found.value;
        var updated := ApplySet(customers[i], doc);
        matched, modified := 1, if updated == customers[i] then 0 else 1;
        customers := customers[i := updated];
      }
      result := if fault.None? then Some(UpdateResult(matched, modified, 0)) else None;
    }

    /**
     * DeleteCustomerByCustomerId: DeleteOne on `filter`. Its `customerId`
     * argument is not used; only the filter decides. With any error the result
     * is nil.
     */
    method DeleteCustomerByCustomerId(customerId: string, filter: CustomerFilter, fault: Option<Fault>)
      returns (result: Option<DeleteResult>, err: Option<string>)
      modifies this
      ensures calls == old(calls) + [DeleteOneCall(filter)]
      ensures err == ErrorOf(fault)
      ensures fault.Some? ==> result == None
      ensures fault.None? ==> result == Some(DeleteResult(if Count(old(customers), Selector(filter)) == 0 then 0 else 1))
      ensures !WriteApplies(fault) || Count(old(customers), Selector(filter)) == 0 ==> customers == old(customers)
      ensures WriteApplies(fault) && Count(old(customers), Selector(filter)) > 0 ==>
                customers == RemoveAt(old(customers), FirstMatch(old(customers), Selector(filter)).value)
    {
      calls := calls + [DeleteOneCall(filter)];
      err := ErrorOf(fault);
      if !WriteApplies(fault) {
        return None, err;
      }
      var found := FirstMatch(customers, Selector(filter));
      var deleted := 0;
      if found.Some? {
        customers := RemoveAt(customers, found.value);
        deleted := 1;
      }
      result := if fault.None? then Some(DeleteResult(deleted)) else None;
    }

    /**
     * DeleteCustomersByUserId: DeleteMany on `filter`: every matching document
     * goes, every other one stays. The first argument is not used.
     */
    method DeleteCustomersByUserId(customerId: string, filter: CustomerFilter, fault: Option<Fault>)
      returns (result: Option<DeleteResult>, err: Option<string>)
      modifies this
      ensures calls == old(calls) + [DeleteManyCall(filter)]
      ensures !WriteApplies(fault) ==> customers == old(customers) && err == Some(fault.value.msg)
      ensures !WriteApplies(fault) ==> result == if fault.value.Unreachable? then None else Some(DeleteResult(0))
      ensures WriteApplies(fault) ==> err == ErrorOf(fault) && result == Some(DeleteResult(Count(old(customers), Selector(filter))))
      ensures WriteApplies(fault) ==> customers == RemoveAll(old(customers), Selector(filter))
      ensures WriteApplies(fault) ==> |customers| + result.value.deleted == |old(customers)|
    {
      calls := calls + [DeleteManyCall(filter)];
      if !WriteApplies(fault) {
        result := if fault.value.Unreachable? then None else Some(DeleteResult(0));
        return result, Some(fault.value.msg);
      }
      var n := Count(customers, Selector(filter));
      customers := RemoveAll(customers, Selector(filter));
      result, err := Some(DeleteResult(n)), ErrorOf(fault);
    }
  }
}
