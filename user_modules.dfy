/**
 * The user service (src/user/modules/userModules.go): the decision code between
 * a request and the user repository, and the envelope each outcome is reported in.
 */
module UserModules {
  import opened Wrappers
  import opened Bson
  import opened Collection
  import opened UserModel
  import opened UserMongo
  import opened Envelope

  const MsgExists: string := "User with this e-mail or phone already exists"
  const MsgNotCreated: string := "User item was not created"
  const MsgAdded: string := "User Added Successfully"
  const MsgNotFound: string := "User not found or is already deleted"
  const MsgUpdateFailed: string := "User update failed"
  const MsgUpdated: string := "User updated successfully"
  const MsgDeleteFailed: string := "Failed to delete user"
  const MsgDeleted: string := "User deleted successfully"

  /** The document AddUser inserts: the request with its password hashed and the server fields drawn. */
  function Stamped(user: User, hashed: string, drawn: Fresh): (r: User)
    ensures r.firstName == user.firstName && r.lastName == user.lastName
    ensures r.email == user.email && r.phone == user.phone
    ensures r.password == Some(hashed)
    ensures r.id == drawn.objectId && r.userId == drawn.uuid
    ensures r.createdAt == drawn.createdAt && r.updatedAt == drawn.updatedAt
  {
    user.(password := Some(hashed), createdAt := drawn.createdAt, updatedAt := drawn.updatedAt,
          id := drawn.objectId, userId := drawn.uuid)
  }

  /** What a partial update means: supplied names replace the stored ones, updated_at is refreshed. */
  function Patched(u: User, body: User, at: Time): User
  {
    u.(firstName := if body.firstName.Some? then body.firstName else u.firstName,
       lastName := if body.lastName.Some? then body.lastName else u.lastName,
       updatedAt := at)
  }

  /** Applying the update document UpdateUser builds is exactly the partial update. */
  lemma ApplyUpdateDocument(u: User, body: User, at: Time)
    ensures ApplySet(u, UpdateDocument(body.firstName, body.lastName, at)) == Patched(u, body, at)
  {
    var doc := UpdateDocument(body.firstName, body.lastName, at);
    var tail := [SetUpdatedAt(at)];
    var named := u.(firstName := if body.firstName.Some? then body.firstName else u.firstName,
                    lastName := if body.lastName.Some? then body.lastName else u.lastName);
    assert ApplySet(named, tail) == Patched(u, body, at) by {
      assert tail[1..] == [];
    }
    if body.firstName.Some? && body.lastName.Some? {
      assert doc == [SetFirstName(body.firstName.value)] + ([SetLastName(body.lastName.value)] + tail);
      assert doc[1..] == [SetLastName(body.lastName.value)] + tail;
      assert doc[1..][1..] == tail;
    } else if body.firstName.Some? {
      assert doc == [SetFirstName(body.firstName.value)] + tail;
      assert doc[1..] == tail;
      assert ApplySet(u, doc) == ApplySet(u.(firstName := body.firstName), tail);
    } else if body.lastName.Some? {
      assert doc == [SetLastName(body.lastName.value)] + tail;
      assert doc[1..] == tail;
      assert ApplySet(u, doc) == ApplySet(u.(lastName := body.lastName), tail);
    } else {
      assert doc == tail;
    }
  }

  /** No two stored users share a phone value (the uniqueness AddUser is meant to keep). */
  ghost predicate PhonesUnique(users: seq<User>)
  {
    forall i, j :: 0 <= i < j < |users| ==> users[i].phone != users[j].phone
  }

  /** No two stored users share an e-mail value. */
  ghost predicate EmailsUnique(users: seq<User>)
  {
    forall i, j :: 0 <= i < j < |users| ==> users[i].email != users[j].email
  }

  /** Inserting a user whose phone count is zero keeps phones unique. */
  lemma PhonesUniqueAfterInsert(users: seq<User>, u: User)
    requires Count(users, Selector(PhoneIs(u.phone))) == 0
    ensures PhonesUnique(users) ==> PhonesUnique(users + [u])
  {
    forall i | 0 <= i < |users| ensures users[i].phone != u.phone {
      assert !Selector(PhoneIs(u.phone))(users[i]);
    }
  }

  /** Replacing a user by one with the same phone keeps phones unique. */
  lemma PhonesUniqueAfterPatch(users: seq<User>, i: nat, v: User)
    requires i < |users| && v.phone == users[i].phone
    ensures PhonesUnique(users) ==> PhonesUnique(users[i := v])
  {
  }

  /** Removing a user keeps phones unique. */
  lemma PhonesUniqueAfterRemove(users: seq<User>, i: nat)
    requires i < |users|
    ensures PhonesUnique(users) ==> PhonesUnique(RemoveAt(users, i))
  {
    var r := RemoveAt(users, i);
    if PhonesUnique(users) {
      forall a, b | 0 <= a < b < |r| ensures r[a].phone != r[b].phone {
        var a' := if a < i then a else a + 1;
        var b' := if b < i then b else b + 1;
        assert r[a'- (a' - a)] == users[a'];
        assert r[b' - (b' - b)] == users[b'];
        assert a' < b';
      }
    }
  }

  class UserService {
    const repo: UserRepository
    /** HashPassword: bcrypt with cost 14; Err carries bcrypt's error. */
    const hash: string -> Result<string>
    /** The validator's e-mail syntax check. */
    const isEmail: string -> bool

    constructor (repo: UserRepository, hash: string -> Result<string>, isEmail: string -> bool)
      ensures this.repo == repo && this.hash == hash && this.isEmail == isEmail
    {
      this.repo := repo;
      this.hash := hash;
      this.isEmail := isEmail;
    }

    /**
     * GetUsers: one page of users. "No Records Found" (status 500) only when the
     * collection is empty; a page past the end is a 200 whose page is empty.
     * `page` is not used.
     */
    method GetUsers(recordPerPage: int, page: int, startIndex: int, fault: Option<Fault>) returns (o: Outcome)
      modifies repo`calls
      ensures repo.calls == old(repo.calls) + [GetAllUsersCall(startIndex, recordPerPage)]
      ensures fault.Some? ==>
                o == Reply(Response(StatusInternalServerError, MsgListError, fault.value.msg, Null), Some(fault.value.msg))
      ensures fault.None? ==> var listing := GroupPage(repo.users, startIndex, recordPerPage);
                (listing.Err? ==> o == Reply(Response(StatusInternalServerError, MsgListError, listing.msg, Null), Some(listing.msg))) &&
                (listing.Ok? && listing.value != [] ==> o == Reply(Response(StatusOK, MsgListed, NoError, UserPages(listing.value)), None))
      ensures o.Reply? && o.response.message == MsgNoRecords <==> fault.None? && repo.users == []
      ensures o.Reply? && o.response.message == MsgNoRecords ==> o == Reply(Response(StatusInternalServerError, MsgNoRecords, NoError, Null), None)
    {
      var result, err := repo.GetAllUsers(startIndex, recordPerPage, fault);
      if err.Some? {
        return Reply(Response(StatusInternalServerError, MsgListError, err.value, Null), err);
      }
      if |result| == 0 {
        return Reply(Response(StatusInternalServerError, MsgNoRecords, NoError, Null), err);
      }
      o := Reply(Response(StatusOK, MsgListed, NoError, UserPages(result)), err);
    }

    /**
     * GetUser: one user by `user_id`. Not found and a store failure end alike
     * (status 500), told apart only by the error text.
     */
    method GetUser(userId: string, fault: Option<Fault>) returns (o: Outcome)
      modifies repo`calls
      ensures repo.calls == old(repo.calls) + [GetUserByUserIdCall(userId)]
      ensures fault.Some? ==>
                o == Reply(Response(StatusInternalServerError, MsgFetchError, fault.value.msg, Null), Some(fault.value.msg))
      ensures fault.None? && Count(repo.users, Selector(UserIdIs(userId))) == 0 ==>
                o == Reply(Response(StatusInternalServerError, MsgFetchError, ErrNoDocuments, Null), Some(ErrNoDocuments))
      ensures fault.None? && Count(repo.users, Selector(UserIdIs(userId))) > 0 ==>
                var found := repo.users[FirstMatch(repo.users, Selector(UserIdIs(userId))).value];
                found.userId == userId &&
                o == Reply(Response(StatusOK, MsgFetched, NoError, UserDoc(found)), None)
    {
      var user := repo.GetUserByUserId(userId, fault);
      if user.Err? {
        return Reply(Response(StatusInternalServerError, MsgFetchError, user.msg, Null), Some(user.msg));
      }
      o := Reply(Response(StatusOK, MsgFetched, NoError, UserDoc(user.value)), None);
    }

    /**
     * AddUser: validate, count by e-mail, hash the password, count by phone,
     * refuse on a phone match, draw the server fields, insert. The e-mail count
     * is overwritten by the phone count before it is looked at, so only a phone
     * match refuses the user. Every failure before the insert panics, leaving
     * the store untouched.
     */
    method AddUser(user: User, drawn: Fresh, emailFault: Option<Fault>, phoneFault: Option<Fault>, insertFault: Option<Fault>)
      returns (o: Outcome)
      modifies repo
      ensures PhonesUnique(old(repo.users)) ==> PhonesUnique(repo.users)
      ensures !Valid(user, isEmail) ==>
                o == Panic(NilErrorDereference) && repo.users == old(repo.users) && repo.calls == old(repo.calls)
      ensures Valid(user, isEmail) && emailFault.Some? ==>
                o == Panic(LogPanic(emailFault.value.msg)) && repo.users == old(repo.users) &&
                repo.calls == old(repo.calls) + [CountCall("email")]
      ensures Valid(user, isEmail) && emailFault.None? && hash(user.password.value).Err? ==>
                o == Panic(LogPanic(hash(user.password.value).msg)) && repo.users == old(repo.users) &&
                repo.calls == old(repo.calls) + [CountCall("email")]
      ensures Valid(user, isEmail) && emailFault.None? && hash(user.password.value).Ok? && phoneFault.Some? ==>
                o == Panic(LogPanic(phoneFault.value.msg)) && repo.users == old(repo.users) &&
                repo.calls == old(repo.calls) + [CountCall("email"), CountCall("phone")]
      ensures Valid(user, isEmail) && emailFault.None? && hash(user.password.value).Ok? && phoneFault.None? &&
              Count(old(repo.users), Selector(PhoneIs(user.phone))) > 0 ==>
                o == Reply(Response(StatusInternalServerError, MsgExists, NoError, Null), None) &&
                repo.users == old(repo.users) &&
                repo.calls == old(repo.calls) + [CountCall("email"), CountCall("phone")]
      ensures Valid(user, isEmail) && emailFault.None? && hash(user.password.value).Ok? && phoneFault.None? &&
              Count(old(repo.users), Selector(PhoneIs(user.phone))) == 0 ==>
                var stored := Stamped(user, hash(user.password.value).value, drawn);
                repo.calls == old(repo.calls) + [CountCall("email"), CountCall("phone"), AddUserCall(stored)] &&
                (!WriteApplies(insertFault) ==>
                   o == Reply(Response(StatusInternalServerError, MsgNotCreated, insertFault.value.msg, Null), None) &&
                   repo.users == old(repo.users)) &&
                (WriteApplies(insertFault) && IdTaken(old(repo.users), drawn.objectId) ==>
                   o == Reply(Response(StatusInternalServerError, MsgNotCreated, ErrDuplicateId, Null), None) &&
                   repo.users == old(repo.users)) &&
                (WriteApplies(insertFault) && !IdTaken(old(repo.users), drawn.objectId) ==>
                   repo.users == old(repo.users) + [stored] &&
                   o == if insertFault.None? then Reply(Response(StatusOK, MsgAdded, NoError, Text("user_id: " + drawn.uuid)), None)
                        else Reply(Response(StatusInternalServerError, MsgNotCreated, insertFault.value.msg, Null), None))
    {
      var validationErrors := FieldErrors(user, isEmail);
      if validationErrors != [] {
        // the branch reads err.Error() while err is still nil
        return Panic(NilErrorDereference);
      }

      var count, err := repo.CountDocumentBasedOnKey(user, "email", emailFault);
      if err.Some? {
        return Panic(LogPanic(err.value));
      }

      var hashed := hash(user.password.value);
      if hashed.Err? {
        return Panic(LogPanic(hashed.msg));
      }
      var u := user.(password := Some(hashed.value));

      count, err := repo.CountDocumentBasedOnKey(u, "phone", phoneFault);
      if err.Some? {
        return Panic(LogPanic(err.value));
      }
      if count > 0 {
        return Reply(Response(StatusInternalServerError, MsgExists, NoError, Null), err);
      }

      u := u.(createdAt := drawn.createdAt);
      u := u.(updatedAt := drawn.updatedAt);
      u := u.(id := drawn.objectId);
      u := u.(userId := drawn.uuid);

      ghost var before := repo.users;
      var insertErr := repo.AddUserToMongoDb(u, insertFault);
      PhonesUniqueAfterInsert(before, u);
      if insertErr.Some? {
        return Reply(Response(StatusInternalServerError, MsgNotCreated, insertErr.value, Null), err);
      }
      o := Reply(Response(StatusOK, MsgAdded, NoError, Text("user_id: " + u.userId)), err);
    }

    /**
     * UpdateUser: `$set` the supplied names and a fresh `updated_at` (truncated to
     * the second) on the user with this `user_id`. ModifiedCount is read before
     * `err`, and UpdateOne hands back a nil result with every error, so any store
     * error panics, even one after which the update took effect. Zero modified
     * documents is a 404.
     */
    method UpdateUser(userId: string, user: User, now: Time, fault: Option<Fault>) returns (o: Outcome)
      modifies repo
      ensures repo.calls == old(repo.calls) +
                [UpdateOneCall(UserIdIs(userId), UpdateDocument(user.firstName, user.lastName, Rfc3339RoundTrip(now)))]
      ensures |repo.users| == |old(repo.users)|
      ensures PhonesUnique(old(repo.users)) ==> PhonesUnique(repo.users)
      ensures fault.Some? ==> o == Panic(NilResultDereference)
      ensures !WriteApplies(fault) ==> repo.users == old(repo.users)
      ensures WriteApplies(fault) && Count(old(repo.users), Selector(UserIdIs(userId))) == 0 ==>
                repo.users == old(repo.users) &&
                (fault.None? ==> o == Reply(Response(StatusNotFound, MsgNotFound, NoError, Null), None))
      ensures WriteApplies(fault) && Count(old(repo.users), Selector(UserIdIs(userId))) > 0 ==>
                var i := FirstMatch(old(repo.users), Selector(UserIdIs(userId))).value;
                var patched := Patched(old(repo.users)[i], user, Rfc3339RoundTrip(now));
                repo.users == old(repo.users)[i := patched] &&
                (fault.None? && patched == old(repo.users)[i] ==>
                   o == Reply(Response(StatusNotFound, MsgNotFound, NoError, Null), None)) &&
                (fault.None? && patched != old(repo.users)[i] ==>
                   o == Reply(Response(StatusOK, MsgUpdated, NoError, Updated(UpdateResult(1, 1, 0))), None))
    {
      var updateObject: seq<SetField> := [];
      if user.firstName.Some? {
        updateObject := updateObject + [SetFirstName(user.firstName.value)];
      }
      if user.lastName.Some? {
        updateObject := updateObject + [SetLastName(user.lastName.value)];
      }
      var updatedAt := Rfc3339RoundTrip(now);
      updateObject := updateObject + [SetUpdatedAt(updatedAt)];
      assert updateObject == UpdateDocument(user.firstName, user.lastName, updatedAt);

      ghost var before := repo.users;
      ghost var found := FirstMatch(before, Selector(UserIdIs(userId)));
      if found.Some? {
        ApplyUpdateDocument(before[found.value], user, updatedAt);
      }
      var result, err := repo.UpdateOneUserByUserId(UserIdIs(userId), updateObject, fault);
      if found.Some? {
        PhonesUniqueAfterPatch(before, found.value, repo.users[found.value]);
      }
      if result.None? {
        return Panic(NilResultDereference);
      }
      if result.value.modified == 0 {
        return Reply(Response(StatusNotFound, MsgNotFound, NoError, Null), err);
      }
      if err.Some? {
        // The "update failed" branch: a result is never handed back with an error.
        assert false;
      }
      o := Reply(Response(StatusOK, MsgUpdated, NoError, Updated(result.value)), err);
    }

    /** DeleteUser: delete the first user with this `user_id`; the returned error is always nil. */
    method DeleteUser(userId: string, fault: Option<Fault>) returns (o: Outcome)
      modifies repo
      ensures repo.calls == old(repo.calls) + [DeleteOneCall(UserIdIs(userId))]
      ensures o.Reply? && o.err == None
      ensures PhonesUnique(old(repo.users)) ==> PhonesUnique(repo.users)
      ensures fault.Some? ==> o.response == Response(StatusInternalServerError, MsgDeleteFailed, fault.value.msg, Null)
      ensures !WriteApplies(fault) ==> repo.users == old(repo.users)
      ensures WriteApplies(fault) && Count(old(repo.users), Selector(UserIdIs(userId))) == 0 ==>
                repo.users == old(repo.users) &&
                (fault.None? ==> o.response == Response(StatusNotFound, MsgNotFound, NoError, Null))
      ensures WriteApplies(fault) && Count(old(repo.users), Selector(UserIdIs(userId))) > 0 ==>
                repo.users == RemoveAt(old(repo.users), FirstMatch(old(repo.users), Selector(UserIdIs(userId))).value) &&
                (fault.None? ==> o.response == Response(StatusOK, MsgDeleted, NoError, Text("user_id: " + userId)))
    {
      ghost var before := repo.users;
      var result, err := repo.DeleteOneUserByUserId(UserIdIs(userId), fault);
      if WriteApplies(fault) && Count(before, Selector(UserIdIs(userId))) > 0 {
        PhonesUniqueAfterRemove(before, FirstMatch(before, Selector(UserIdIs(userId))).value);
      }
      if err.Some? {
        return Reply(Response(StatusInternalServerError, MsgDeleteFailed, err.value, Null), None);
      }
      if result.value.deleted == 0 {
        return Reply(Response(StatusNotFound, MsgNotFound, NoError, Null), None);
      }
      o := Reply(Response(StatusOK, MsgDeleted, NoError, Text("user_id: " + userId)), None);
    }
  }
}
