/**
 * Whole request sequences against small stores, each showing one behaviour of
 * the services that follows from the code: which duplicate a new user is
 * refused for, what an empty listing answers, what a repeated update within the
 * same second answers, that deleting a user leaves its customers behind, and
 * that a customer is read whoever the path names as its owner.
 */
module Scenarios {
  import opened Wrappers
  import opened Bson
  import opened Collection
  import opened Envelope
  import opened UserModel
  import opened UserMongo
  import opened UserModules
  import CustomerModel
  import CustomerMongo
  import CustomerModules
  import opened Pagination
  import opened Gin
  import opened UserController

  /** A request body that passes validation under any e-mail check accepting `email`. */
  function SignUp(email: string, phone: string): User
  {
    User("", "", Some("Jo"), Some("Lin"), Some("secret1"), Some(email), Some(phone), 0, 0)
  }

  /**
   * The same sign-up twice: the first is stored, the second is refused, and the
   * store holds one user. The refusal comes from the phone count.
   */
  method SignUpTwice(isEmail: string -> bool, hash: string -> Result<string>, first: Fresh, second: Fresh)
    returns (o1: Outcome, o2: Outcome, stored: seq<User>)
    requires isEmail("jo@example.com") && hash("secret1").Ok?
    ensures o1 == Reply(Response(StatusOK, MsgAdded, NoError, Text("user_id: " + first.uuid)), None)
    ensures o2 == Reply(Response(StatusInternalServerError, MsgExists, NoError, Null), None)
    ensures stored == [Stamped(SignUp("jo@example.com", "555-0100"), hash("secret1").value, first)]
  {
    var repo := new UserRepository([]);
    var service := new UserService(repo, hash, isEmail);
    var body := SignUp("jo@example.com", "555-0100");
    assert Valid(body, isEmail);
    o1 := service.AddUser(body, first, None, None, None);
    assert repo.users[0].phone == Some("555-0100");
    assert Selector(PhoneIs(body.phone))(repo.users[0]);
    o2 := service.AddUser(body, second, None, None, None);
    stored := repo.users;
  }

  /**
   * A second user with the same e-mail and another phone is stored: the e-mail
   * count is never looked at, so e-mails are not kept unique.
   */
  method SameEmailOtherPhone(isEmail: string -> bool, hash: string -> Result<string>, first: Fresh, second: Fresh)
    returns (o2: Outcome, stored: seq<User>)
    requires isEmail("jo@example.com") && hash("secret1").Ok?
    requires first.objectId != second.objectId
    ensures o2 == Reply(Response(StatusOK, MsgAdded, NoError, Text("user_id: " + second.uuid)), None)
    ensures |stored| == 2 && stored[0].email == stored[1].email
    ensures !EmailsUnique(stored) && PhonesUnique(stored)
  {
    var repo := new UserRepository([]);
    var service := new UserService(repo, hash, isEmail);
    var o1 := service.AddUser(SignUp("jo@example.com", "555-0100"), first, None, None, None);
    var body := SignUp("jo@example.com", "555-0101");
    assert !Selector(PhoneIs(body.phone))(repo.users[0]);
    assert !IdTaken(repo.users, second.objectId);
    o2 := service.AddUser(body, second, None, None, None);
    stored := repo.users;
  }

  /** Listing an empty collection is a 500 "No Records Found", whatever the query asks for. */
  method ListEmptyCollection(recordPerPageQuery: string, pageQuery: string) returns (r: HttpReply)
    ensures r == Written(StatusInternalServerError,
                         EnvelopeBody(Response(StatusInternalServerError, MsgNoRecords, NoError, Null)))
  {
    var repo := new UserRepository([]);
    var service := new UserService(repo, s => Ok(s), s => true);
    var controller := new UserController(service);
    r := controller.GetUsersHandler(recordPerPageQuery, pageQuery, None);
  }

  /**
   * Two identical updates within the same second: the first modifies the user,
   * the second changes nothing (updated_at is truncated to the same second), and
   * zero modified documents is reported as "not found".
   */
  method RepeatedUpdateWithinSecond(stored: User, body: User, now: Time, later: Time) returns (o1: Outcome, o2: Outcome)
    requires body.firstName.Some? && stored.firstName != body.firstName
    requires Rfc3339RoundTrip(later) == Rfc3339RoundTrip(now)
    ensures o1 == Reply(Response(StatusOK, MsgUpdated, NoError, Updated(UpdateResult(1, 1, 0))), None)
    ensures o2 == Reply(Response(StatusNotFound, UserModules.MsgNotFound, NoError, Null), None)
  {
    var repo := new UserRepository([stored]);
    var service := new UserService(repo, s => Ok(s), s => true);
    assert Selector(UserIdIs(stored.userId))(repo.users[0]);
    o1 := service.UpdateUser(stored.userId, body, now, None);
    assert Selector(UserIdIs(stored.userId))(repo.users[0]);
    o2 := service.UpdateUser(stored.userId, body, later, None);
  }

  /** Deleting a user does not delete its customers: they are left without an owner. */
  method DeleteUserLeavesCustomers(owner: User, customer: CustomerModel.Customer)
    returns (o: Outcome, users: seq<User>, customers: seq<CustomerModel.Customer>)
    requires customer.userId == owner.userId
    ensures o.Reply? && o.response.status == StatusOK
    ensures CustomerModules.OwnersExist([owner], [customer])
    ensures users == [] && customers == [customer]
    ensures !CustomerModules.OwnersExist(users, customers)
  {
    var userRepo := new UserRepository([owner]);
    var customerRepo := new CustomerMongo.CustomerRepository([customer]);
    var service := new UserService(userRepo, s => Ok(s), s => true);
    assert CustomerModules.OwnerPresent([owner], customer.userId) by {
      assert [owner][0].userId == customer.userId;
    }
    assert Selector(UserIdIs(owner.userId))(userRepo.users[0]);
    o := service.DeleteUser(owner.userId, None);
    users, customers := userRepo.users, customerRepo.customers;
    assert !CustomerModules.OwnerPresent(users, customers[0].userId);
  }

  /**
   * Reading a customer through another user's path: the owner probe only checks
   * that the path's user exists, and the fetch filters on `customer_id` alone.
   */
  method ReadCustomerThroughOtherUser(pathUser: User, owner: User, customer: CustomerModel.Customer)
    returns (o: Outcome)
    requires customer.userId == owner.userId && pathUser.userId != owner.userId
    ensures o == Reply(Response(StatusOK, MsgFetched, NoError, CustomerDoc(customer)), None)
    ensures o.response.data.customer.userId != pathUser.userId
  {
    var userRepo := new UserRepository([pathUser, owner]);
    var customerRepo := new CustomerMongo.CustomerRepository([customer]);
    var service := new CustomerModules.CustomerService(customerRepo, userRepo);
    assert userRepo.users[0].userId == pathUser.userId;
    assert CustomerMongo.Selector(CustomerMongo.CustomerIdIs(customer.customerId))(customerRepo.customers[0]);
    o := service.GetCustomerByCustomerId(pathUser.userId, customer.customerId, None, None);
  }

  /**
   * The wrapped start index of `?recordPerPage=2&page=9223372036854775807` turns
   * a request for a page far past the end into the first two of the last
   * four records; the corrected start index is out of `$slice`'s 32-bit range,
   * so the listing fails instead.
   */
  lemma WrappedStartIndexReadsFromTheEnd<T>(matched: seq<T>)
    requires |matched| >= 4
    ensures var p := PaginateAsWritten(Itoa(2), Itoa(MaxInt64));
            GroupPage(matched, p.startIndex, p.recordPerPage) ==
              Ok([Page(|matched|, matched[|matched| - 4..|matched| - 2])])
    ensures var p := Paginate(Itoa(2), Itoa(MaxInt64));
            GroupPage(matched, p.startIndex, p.recordPerPage).Err?
  {
    AsWrittenStartIndexWraps();
    var p := PaginateAsWritten(Itoa(2), Itoa(MaxInt64));
    PositivePassesThrough(2, DefaultRecordPerPage);
    var page := Slice(matched, -4, 2);
    assert page.Ok?;
    assert page.value == matched[|matched| - 4..|matched| - 2];
  }

  /**
   * The same request through the users handler: over four or more users,
   * `?recordPerPage=2&page=9223372036854775807` is answered 200 with the 4th-
   * and 3rd-last users.
   */
  method HugePageThroughHandler(stored: seq<User>) returns (r: HttpReply)
    requires |stored| >= 4
    ensures r == Written(StatusOK, EnvelopeBody(Response(StatusOK, MsgListed, NoError,
                  UserPages([Page(|stored|, stored[|stored| - 4..|stored| - 2])]))))
  {
    var repo := new UserRepository(stored);
    var service := new UserService(repo, s => Ok(s), s => true);
    var controller := new UserController(service);
    WrappedStartIndexReadsFromTheEnd(stored);
    r := controller.GetUsersHandler(Itoa(2), Itoa(MaxInt64), None);
  }
}
