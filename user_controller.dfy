/**
 * The user handlers (src/api/http/controllers/userController.go): read the path
 * and query parameters, bind the JSON body, call the user service, and render
 * its response.
 */
module UserController {
  import opened Wrappers
  import opened Bson
  import opened Collection
  import opened UserModel
  import opened UserMongo
  import opened Envelope
  import opened UserModules
  import opened Pagination
  import opened Gin

  class UserController {
    const service: UserService

    constructor (service: UserService)
      ensures this.service == service
    {
      this.service := service;
    }

    /**
     * GET /users: page through all users, with the paging arguments taken from
     * the query. The start index is computed as the handler writes it, wrapping
     * at 64 bits.
     */
    method GetUsersHandler(recordPerPageQuery: string, pageQuery: string, fault: Option<Fault>) returns (r: HttpReply)
      modifies service.repo`calls
      ensures var p := PaginateAsWritten(recordPerPageQuery, pageQuery);
              service.repo.calls == old(service.repo.calls) + [GetAllUsersCall(p.startIndex, p.recordPerPage)]
      ensures r.Written? && Mirrored(r)
      ensures fault.Some? ==>
                r == Written(StatusInternalServerError,
                             EnvelopeBody(Response(StatusInternalServerError, MsgListError, fault.value.msg, Null)))
      ensures fault.None? && service.repo.users == [] ==>
                r == Written(StatusInternalServerError, EnvelopeBody(Response(StatusInternalServerError, MsgNoRecords, NoError, Null)))
      ensures fault.None? ==>
                var p := PaginateAsWritten(recordPerPageQuery, pageQuery);
                var listing := GroupPage(service.repo.users, p.startIndex, p.recordPerPage);
                (listing.Err? ==>
                   r == Written(StatusInternalServerError,
                                EnvelopeBody(Response(StatusInternalServerError, MsgListError, listing.msg, Null)))) &&
                (listing.Ok? && listing.value != [] ==>
                   r == Written(StatusOK, EnvelopeBody(Response(StatusOK, MsgListed, NoError, UserPages(listing.value)))))
    {
      var p := PaginateAsWritten(recordPerPageQuery, pageQuery);
      var o := service.GetUsers(p.recordPerPage, p.page, p.startIndex, fault);
      r := Render(o);
    }

    /** GET /users/:user_id. */
    method GetUserHandler(userId: string, fault: Option<Fault>) returns (r: HttpReply)
      modifies service.repo`calls
      ensures service.repo.calls == old(service.repo.calls) + [GetUserByUserIdCall(userId)]
      ensures r.Written? && Mirrored(r)
      ensures r.status == StatusOK <==> fault.None? && Count(service.repo.users, Selector(UserIdIs(userId))) > 0
    {
      var o := service.GetUser(userId, fault);
      r := Render(o);
    }

    /** POST /users: a body that does not bind is answered 400 and reaches no repository. */
    method AddUserHandler(body: Result<User>, drawn: Fresh,
                          emailFault: Option<Fault>, phoneFault: Option<Fault>, insertFault: Option<Fault>)
      returns (r: HttpReply)
      modifies service.repo
      ensures Mirrored(r)
      ensures PhonesUnique(old(service.repo.users)) ==> PhonesUnique(service.repo.users)
      ensures body.Err? ==>
                r == BindFailed(body.msg) &&
                service.repo.users == old(service.repo.users) && service.repo.calls == old(service.repo.calls)
      ensures body.Ok? && !Valid(body.value, service.isEmail) ==>
                r == ConnectionDropped && service.repo.users == old(service.repo.users)
      ensures body.Ok? && Valid(body.value, service.isEmail) && emailFault.None? && phoneFault.None? &&
              service.hash(body.value.password.value).Ok? && insertFault.None? &&
              Count(old(service.repo.users), Selector(PhoneIs(body.value.phone))) == 0 &&
              !IdTaken(old(service.repo.users), drawn.objectId) ==>
                r.Written? && r.status == StatusOK && |service.repo.users| == |old(service.repo.users)| + 1
    {
      if body.Err? {
        return BindFailed(body.msg);
      }
      var o := service.AddUser(body.value, drawn, emailFault, phoneFault, insertFault);
      r := Render(o);
    }

    /** PATCH /users/:user_id. */
    method UpdateUserHandler(userId: string, body: Result<User>, now: Time, fault: Option<Fault>) returns (r: HttpReply)
      modifies service.repo
      ensures Mirrored(r)
      ensures PhonesUnique(old(service.repo.users)) ==> PhonesUnique(service.repo.users)
      ensures body.Err? ==>
                r == BindFailed(body.msg) &&
                service.repo.users == old(service.repo.users) && service.repo.calls == old(service.repo.calls)
      ensures body.Ok? ==>
                service.repo.calls == old(service.repo.calls) +
                  [UpdateOneCall(UserIdIs(userId), UpdateDocument(body.value.firstName, body.value.lastName, Rfc3339RoundTrip(now)))]
      ensures body.Ok? && fault.Some? ==> r == ConnectionDropped
      ensures body.Ok? && fault.None? ==> r.Written? && (r.status == StatusOK || r.status == StatusNotFound)
    {
      if body.Err? {
        return BindFailed(body.msg);
      }
      var o := service.UpdateUser(userId, body.value, now, fault);
      r := Render(o);
    }

    /** DELETE /users/:user_id. */
    method DeleteUserHandler(userId: string, fault: Option<Fault>) returns (r: HttpReply)
      modifies service.repo
      ensures service.repo.calls == old(service.repo.calls) + [DeleteOneCall(UserIdIs(userId))]
      ensures r.Written? && Mirrored(r)
      ensures PhonesUnique(old(service.repo.users)) ==> PhonesUnique(service.repo.users)
      ensures r.status == StatusOK <==> fault.None? && Count(old(service.repo.users), Selector(UserIdIs(userId))) > 0
    {
      var o := service.DeleteUser(userId, fault);
      r := Render(o);
    }
  }
}
