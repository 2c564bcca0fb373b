/**
 * The customer handlers (src/api/http/controllers/customerController.go): which
 * path parameters reach the customer service, the paging arguments of the two
 * list handlers, the bind-failure reply and the rendering of the response.
 */
module CustomerController {
  import opened Wrappers
  import opened Bson
  import opened Collection
  import opened CustomerModel
  import opened CustomerMongo
  import opened Envelope
  import opened CustomerModules
  import opened Pagination
  import opened Gin
  import UserMongo

  class CustomerController {
    const service: CustomerService

    constructor (service: CustomerService)
      ensures this.service == service
    {
      this.service := service;
    }

    /** GET /customers: page through all customers; the start index wraps at 64 bits as written. */
    method GetCustomersHandler(recordPerPageQuery: string, pageQuery: string, fault: Option<Fault>) returns (r: HttpReply)
      modifies service.customers`calls
      ensures var p := PaginateAsWritten(recordPerPageQuery, pageQuery);
              service.customers.calls == old(service.customers.calls) + [GetAllCustomersCall(p.startIndex, p.recordPerPage)]
      ensures r.Written? && Mirrored(r)
      ensures fault.Some? ==>
                r == Written(StatusInternalServerError,
                             EnvelopeBody(Response(StatusInternalServerError, MsgListError, fault.value.msg, Null)))
      ensures fault.None? && service.customers.customers == [] ==>
                r == Written(StatusInternalServerError, EnvelopeBody(Response(StatusInternalServerError, MsgNoRecords, NoError, Null)))
      ensures fault.None? ==>
                var p := PaginateAsWritten(recordPerPageQuery, pageQuery);
                var listing := GroupPage(service.customers.customers, p.startIndex, p.recordPerPage);
                (listing.Err? ==>
                   r == Written(StatusInternalServerError,
                                EnvelopeBody(Response(StatusInternalServerError, MsgListError, listing.msg, Null)))) &&
                (listing.Ok? && listing.value != [] ==>
                   r == Written(StatusOK, EnvelopeBody(Response(StatusOK, MsgListed, NoError, CustomerPages(listing.value)))))
    {
      var p := PaginateAsWritten(recordPerPageQuery, pageQuery);
      var o := service.GetAllCustomers(p.recordPerPage, p.page, p.startIndex, fault);
      r := Render(o);
    }

    /**
     * GET /users/:user_id/customers: page through the customers of one user; the
     * start index wraps at 64 bits as written.
     */
    method GetCustomersByUserIdHandler(userId: string, recordPerPageQuery: string, pageQuery: string,
                                       probeFault: Option<Fault>, fault: Option<Fault>) returns (r: HttpReply)
      modifies service.users`calls, service.customers`calls
      ensures service.users.calls == old(service.users.calls) + [UserMongo.GetUserByUserIdCall(userId)]
      ensures ProbeError(service.users.users, userId, probeFault).None? ==>
                var p := PaginateAsWritten(recordPerPageQuery, pageQuery);
                service.customers.calls ==
                  old(service.customers.calls) + [GetCustomersByUserIdCall(userId, p.startIndex, p.recordPerPage)]
      ensures r.Written? && Mirrored(r)
      ensures ProbeError(service.users.users, userId, probeFault).Some? ==>
                r == Render(ProbeFailed(ProbeError(service.users.users, userId, probeFault).value))
      ensures ProbeError(service.users.users, userId, probeFault).None? && fault.None? ==>
                var p := PaginateAsWritten(recordPerPageQuery, pageQuery);
                var listing := GroupPage(Matching(service.customers.customers, Selector(OwnerIs(userId))), p.startIndex, p.recordPerPage);
                (listing.Err? ==>
                   r == Written(StatusInternalServerError,
                                EnvelopeBody(Response(StatusInternalServerError, MsgListError, listing.msg, Null)))) &&
                (listing.Ok? && listing.value != [] ==>
                   r == Written(StatusOK, EnvelopeBody(Response(StatusOK, MsgListed, NoError, CustomerPages(listing.value)))))
      ensures r.Written? && r.status == StatusOK ==>
                r.body.EnvelopeBody? && r.body.response.data.CustomerPages? && |r.body.response.data.customerPages| == 1 &&
                var items := r.body.response.data.customerPages[0].items;
                forall k :: 0 <= k < |items| ==> items[k].userId == userId
    {
      var p := PaginateAsWritten(recordPerPageQuery, pageQuery);
      var o := service.GetCustomersByUserId(userId, p.recordPerPage, p.page, p.startIndex, probeFault, fault);
      r := Render(o);
    }

    /** GET /users/:user_id/customers/:customer_id: both parameters are forwarded. */
    method GetCustomerByCustomerIdHandler(userId: string, customerId: string, probeFault: Option<Fault>, fault: Option<Fault>)
      returns (r: HttpReply)
      modifies service.users`calls, service.customers`calls
      ensures service.users.calls == old(service.users.calls) + [UserMongo.GetUserByUserIdCall(userId)]
      ensures ProbeError(service.users.users, userId, probeFault).None? ==>
                service.customers.calls == old(service.customers.calls) + [GetCustomerByCustomerIdCall(customerId)]
      ensures r.Written? && Mirrored(r)
      ensures r.Written? && r.status == StatusOK ==>
                r.body.EnvelopeBody? && r.body.response.data.CustomerDoc? &&
                r.body.response.data.customer.customerId == customerId
    {
      var o := service.GetCustomerByCustomerId(userId, customerId, probeFault, fault);
      r := Render(o);
    }

    /** POST /users/:user_id/customers: a body that does not bind reaches no repository. */
    method AddCustomerByUserIdHandler(userId: string, body: Result<Customer>, drawn: Fresh,
                                      probeFault: Option<Fault>, insertFault: Option<Fault>) returns (r: HttpReply)
      modifies service.users`calls, service.customers
      ensures Mirrored(r)
      ensures OwnersExist(service.users.users, old(service.customers.customers)) ==>
                OwnersExist(service.users.users, service.customers.customers)
      ensures body.Err? ==>
                r == BindFailed(body.msg) && service.users.calls == old(service.users.calls) &&
                service.customers.calls == old(service.customers.calls) &&
                service.customers.customers == old(service.customers.customers)
      ensures body.Ok? ==> service.users.calls == old(service.users.calls) + [UserMongo.GetUserByUserIdCall(userId)]
      ensures body.Ok? && ProbeError(service.users.users, userId, probeFault).None? && !Valid(body.value) ==>
                r == ConnectionDropped
      ensures body.Ok? && ProbeError(service.users.users, userId, probeFault).None? && Valid(body.value) ==>
                r.Written? &&
                service.customers.calls == old(service.customers.calls) + [AddCustomerCall(Stamped(body.value, userId, drawn))]
    {
      if body.Err? {
        return BindFailed(body.msg);
      }
      var o := service.AddCustomerByUserId(userId, body.value, drawn, probeFault, insertFault);
      r := Render(o);
    }

    /** PATCH /users/:user_id/customers/:customer_id. */
    method UpdateCustomerByCustomerIdHandler(userId: string, customerId: string, body: Result<Customer>, now: Time,
                                             probeFault: Option<Fault>, fault: Option<Fault>) returns (r: HttpReply)
      modifies service.users`calls, service.customers
      ensures Mirrored(r)
      ensures OwnersExist(service.users.users, old(service.customers.customers)) ==>
                OwnersExist(service.users.users, service.customers.customers)
      ensures body.Err? ==>
                r == BindFailed(body.msg) && service.users.calls == old(service.users.calls) &&
                service.customers.calls == old(service.customers.calls) &&
                service.customers.customers == old(service.customers.customers)
      ensures body.Ok? ==> service.users.calls == old(service.users.calls) + [UserMongo.GetUserByUserIdCall(userId)]
      ensures body.Ok? && ProbeError(service.users.users, userId, probeFault).None? ==>
                service.customers.calls == old(service.customers.calls) +
                  [UpdateOneCall(CustomerIdIs(customerId),
                                 UpdateDocument(body.value.firstName, body.value.lastName, Rfc3339RoundTrip(now)))]
    {
      if body.Err? {
        return BindFailed(body.msg);
      }
      var o := service.UpdateCustomerByCustomerId(userId, customerId, body.value, now, probeFault, fault);
      r := Render(o);
    }

    /**
     * DELETE /users/:user_id/customers/:customer_id: the user in the path is not
     * read; whichever user owns the customer, it is deleted.
     */
    method DeleteCustomerByCustomerIdHandler(userId: string, customerId: string, fault: Option<Fault>) returns (r: HttpReply)
      modifies service.customers
      ensures service.customers.calls == old(service.customers.calls) + [DeleteOneCall(CustomerIdIs(customerId))]
      ensures r.Written? && Mirrored(r)
      ensures OwnersExist(service.users.users, old(service.customers.customers)) ==>
                OwnersExist(service.users.users, service.customers.customers)
      ensures WriteApplies(fault) && Count(old(service.customers.customers), Selector(CustomerIdIs(customerId))) > 0 ==>
                service.customers.customers ==
                  RemoveAt(old(service.customers.customers),
                           FirstMatch(old(service.customers.customers), Selector(CustomerIdIs(customerId))).value)
    {
      var o := service.DeleteCustomerByCustomerId(customerId, fault);
      r := Render(o);
    }

    /** DELETE /users/:user_id/customers: every customer of the user goes. */
    method DeleteCustomersByUserId(userId: string, fault: Option<Fault>) returns (r: HttpReply)
      modifies service.customers
      ensures service.customers.calls == old(service.customers.calls) + [DeleteManyCall(OwnerIs(userId))]
      ensures r.Written? && Mirrored(r)
      ensures WriteApplies(fault) ==> Count(service.customers.customers, Selector(OwnerIs(userId))) == 0
    {
      var o := service.DeleteCustomersByUserId(userId, fault);
      r := Render(o);
    }
  }
}
