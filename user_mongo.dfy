/**
 * The user repository (src/user/dal/mongo/userMongo.go) over an in-memory
 * collection. `users` is the collection in natural order; `calls` records every
 * repository call, so that the services' promises about which calls they make
 * (and which they do not) can be stated.
 */
module UserMongo {
  import opened Wrappers
  import opened Bson
  import opened Collection
  import opened UserModel

  /** The filters sent to the user collection. */
  datatype UserFilter =
    | UserIdIs(userId: string)
    | EmailIs(email: Option<string>)
    | PhoneIs(phone: Option<string>)

  /** A nil pointer in a filter is BSON null, which matches a null field. */
  predicate Matches(f: UserFilter, u: User)
  {
    match f
    case UserIdIs(id) => u.userId == id
    case EmailIs(e) => u.email == e
    case PhoneIs(p) => u.phone == p
  }

  function Selector(f: UserFilter): User -> bool
  {
    u => Matches(f, u)
  }

  /** `$set` on one user document: each entry overwrites its field, in order. */
  function ApplySet(u: User, doc: seq<SetField>): (r: User)
    ensures r.(firstName := u.firstName, lastName := u.lastName, updatedAt := u.updatedAt) == u
    ensures (forall i :: 0 <= i < |doc| ==> doc[i].SetUpdatedAt?) ==> r.firstName == u.firstName && r.lastName == u.lastName
    decreases |doc|
  {
    if doc == [] then u
    else
      var next := match doc[0]
        case SetFirstName(n) => u.(firstName := Some(n))
        case SetLastName(n) => u.(lastName := Some(n))
        case SetUpdatedAt(t) => u.(updatedAt := t);
      ApplySet(next, doc[1..])
  }

  /** One call made on the repository. */
  datatype UserCall =
    | GetAllUsersCall(startIndex: int, recordPerPage: int)
    | GetUserByUserIdCall(userId: string)
    | CountCall(key: string)
    | AddUserCall(user: User)
    | UpdateOneCall(filter: UserFilter, doc: seq<SetField>)
    | DeleteOneCall(filter: UserFilter)

  const ErrUnsupportedKey: string := "unsupported key"

  /** True iff some stored document already has this `_id`. */
  predicate IdTaken(users: seq<User>, id: ObjectId)
  {
    exists i :: 0 <= i < |users| && users[i].id == id
  }

  class UserRepository {
    var users: seq<User>
    ghost var calls: seq<UserCall>

    constructor (users: seq<User>)
      ensures this.users == users && calls == []
    {
      this.users := users;
      calls := [];
    }

    /**
     * GetAllUsers: `$match` on every document, `$group` them into one document
     * with `total_count` and `$project` the `$slice` window [startIndex, +recordPerPage).
     */
    method GetAllUsers(startIndex: int, recordPerPage: int, fault: Option<Fault>)
      returns (cursor: seq<Page<User>>, err: Option<string>)
      modifies this`calls
      ensures calls == old(calls) + [GetAllUsersCall(startIndex, recordPerPage)]
      ensures fault.Some? ==> cursor == [] && err == Some(fault.value.msg)
      ensures fault.None? && users == [] ==> cursor == [] && err == None
      ensures fault.None? ==> var listing := GroupPage(users, startIndex, recordPerPage);
                (listing.Ok? ==> cursor == listing.value && err == None) &&
                (listing.Err? ==> cursor == [] && err == Some(listing.msg))
    {
      calls := calls + [GetAllUsersCall(startIndex, recordPerPage)];
      if fault.Some? {
        return [], Some(fault.value.msg);
      }
      var listing := GroupPage(users, startIndex, recordPerPage);
      if listing.Err? {
        return [], Some(listing.msg);
      }
      cursor, err := listing.value, None;
    }

    /** GetUserByUserId: FindOne on `user_id`, decoded; ErrNoDocuments when nothing matches. */
    method GetUserByUserId(userId: string, fault: Option<Fault>) returns (r: Result<User>)
      modifies this`calls
      ensures calls == old(calls) + [GetUserByUserIdCall(userId)]
      ensures fault.Some? ==> r == Err(fault.value.msg)
      ensures fault.None? ==> (r.Err? <==> forall i :: 0 <= i < |users| ==> users[i].userId != userId)
      ensures fault.None? && r.Err? ==> r.msg == ErrNoDocuments
      ensures r.Ok? ==> r.value in users && r.value.userId == userId
      ensures r.Ok? ==> r.value == users[FirstMatch(users, Selector(UserIdIs(userId))).value]
    {
      calls := calls + [GetUserByUserIdCall(userId)];
      if fault.Some? {
        return Err(fault.value.msg);
      }
      var found := FirstMatch(users, Selector(UserIdIs(userId)));
      if found.None? {
        return Err(ErrNoDocuments);
      }
      r := Ok(users[found.value]);
    }

    /**
     * CountDocumentBasedOnKey: the number of users sharing `user`'s e-mail
     * (key "email") or phone (key "phone"). Any other key fails before the
     * collection is queried.
     */
    method CountDocumentBasedOnKey(user: User, key: string, fault: Option<Fault>)
      returns (count: int, err: Option<string>)
      modifies this`calls
      ensures calls == old(calls) + [CountCall(key)]
      ensures key != "email" && key != "phone" ==> count == 0 && err == Some(ErrUnsupportedKey)
      ensures (key == "email" || key == "phone") && fault.Some? ==> count == 0 && err == Some(fault.value.msg)
      ensures key == "email" && fault.None? ==> count == Count(users, Selector(EmailIs(user.email))) && err == None
      ensures key == "phone" && fault.None? ==> count == Count(users, Selector(PhoneIs(user.phone))) && err == None
    {
      calls := calls + [CountCall(key)];
      var filter: UserFilter;
      if key == "email" {
        filter := EmailIs(user.email);
      } else if key == "phone" {
        filter := PhoneIs(user.phone);
      } else {
        return 0, Some(ErrUnsupportedKey);
      }
      if fault.Some? {
        return 0, Some(fault.value.msg);
      }
      count, err := Count(users, Selector(filter)), None;
    }

    /** AddUserToMongoDb: InsertOne of the document as given; only a taken `_id` is refused. */
    method AddUserToMongoDb(user: User, fault: Option<Fault>) returns (err: Option<string>)
      modifies this
      ensures calls == old(calls) + [AddUserCall(user)]
      ensures !WriteApplies(fault) ==> err == Some(fault.value.msg) && users == old(users)
      ensures WriteApplies(fault) && IdTaken(old(users), user.id) ==> err == Some(ErrDuplicateId) && users == old(users)
      ensures WriteApplies(fault) && !IdTaken(old(users), user.id) ==> err == ErrorOf(fault) && users == old(users) + [user]
    {
      calls := calls + [AddUserCall(user)];
      if !WriteApplies(fault) {
        return Some(fault.value.msg);
      }
      if exists i :: 0 <= i < |users| && users[i].id == user.id {
        return Some(ErrDuplicateId);
      }
      users := users + [user];
      err := ErrorOf(fault);
    }

    /**
     * UpdateOneUserByUserId: `$set` the entries of `doc` on the first document
     * matching `filter`, never inserting (upsert is false). A document the update
     * leaves as it was is matched but not modified. With any error the result is
     * nil, even when the write itself took effect.
     */
    method UpdateOneUserByUserId(filter: UserFilter, doc: seq<SetField>, fault: Option<Fault>)
      returns (result: Option<UpdateResult>, err: Option<string>)
      modifies this
      ensures calls == old(calls) + [UpdateOneCall(filter, doc)]
      ensures |users| == |old(users)|
      ensures err == ErrorOf(fault)
      ensures fault.Some? ==> result == None
      ensures !WriteApplies(fault) ==> users == old(users)
      ensures WriteApplies(fault) && Count(old(users), Selector(filter)) == 0 ==>
                users == old(users) && (fault.None? ==> result == Some(UpdateResult(0, 0, 0)))
      ensures WriteApplies(fault) && Count(old(users), Selector(filter)) > 0 ==>
                var i := FirstMatch(old(users), Selector(filter)).value;
                var updated := ApplySet(old(users)[i], doc);
                users == old(users)[i := updated] &&
                (fault.None? ==> result == Some(UpdateResult(1, if updated == old(users)[i] then 0 else 1, 0)))
    {
      calls := calls + [UpdateOneCall(filter, doc)];
      err := ErrorOf(fault);
      if !WriteApplies(fault) {
        return None, err;
      }
      var found := FirstMatch(users, Selector(filter));
      var matched, modified := 0, 0;
      if found.Some? {
        var i := found.value;
        var updated := ApplySet(users[i], doc);
        matched, modified := 1, if updated == users[i] then 0 else 1;
        users := users[i := updated];
      }
      result := if fault.None? then Some(UpdateResult(matched, modified, 0)) else None;
    }

    /**
     * DeleteOneUserByUserId: removes the first document matching `filter`, if
     * any. With any error the result is nil.
     */
    method DeleteOneUserByUserId(filter: UserFilter, fault: Option<Fault>)
      returns (result: Option<DeleteResult>, err: Option<string>)
      modifies this
      ensures calls == old(calls) + [DeleteOneCall(filter)]
      ensures err == ErrorOf(fault)
      ensures fault.Some? ==> result == None
      ensures fault.None? ==> result == Some(DeleteResult(if Count(old(users), Selector(filter)) == 0 then 0 else 1))
      ensures !WriteApplies(fault) || Count(old(users), Selector(filter)) == 0 ==> users == old(users)
      ensures WriteApplies(fault) && Count(old(users), Selector(filter)) > 0 ==>
                users == RemoveAt(old(users), FirstMatch(old(users), Selector(filter)).value)
    {
      calls := calls + [DeleteOneCall(filter)];
      err := ErrorOf(fault);
      if !WriteApplies(fault) {
        return None, err;
      }
      var found := FirstMatch(users, Selector(filter));
      var deleted := 0;
      if found.Some? {
        users := RemoveAt(users, found.value);
        deleted := 1;
      }
      result := if fault.None? then Some(DeleteResult(deleted)) else None;
    }
  }
}
