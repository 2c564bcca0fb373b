/**
 * The response envelope both services return (`Response{Status, Message, Error,
 * Data}` of src/user/interfaces/userService.go and its customer twin) and what a
 * service call can end in: a returned (response, err) pair, or a panic.
 */
module Envelope {
  import opened Wrappers
  import opened Bson
  import opened Collection
  import UserModel
  import CustomerModel

  const StatusOK: int := 200
  const StatusBadRequest: int := 400
  const StatusNotFound: int := 404
  const StatusInternalServerError: int := 500

  /** The `Error` text of a response that carries no error. */
  const NoError: string := "NA"

  /** Messages both services use for their listing and fetching calls. */
  const MsgListError: string := "error occured while listing user items"
  const MsgFetchError: string := "Error occured while listing user items"
  const MsgNoRecords: string := "No Records Found"
  const MsgListed: string := "Records Fetched Successfully"
  const MsgFetched: string := "Record Fetched Successfully"

  /** The `Data` of a response. */
  datatype Payload =
    | Null
    | Text(text: string)
    | UserDoc(user: UserModel.User)
    | CustomerDoc(customer: CustomerModel.Customer)
    | UserPages(userPages: seq<Page<UserModel.User>>)
    | CustomerPages(customerPages: seq<Page<CustomerModel.Customer>>)
    | Updated(result: UpdateResult)

  datatype Response = Response(status: int, message: string, error: string, data: Payload)

  /** Why a service call panics instead of returning. */
  datatype PanicReason =
    | NilErrorDereference   // `err.Error()` called while `err` is nil
    | NilResultDereference  // `result.ModifiedCount` read through a nil *UpdateResult
    | LogPanic(msg: string) // `log.Panic(err)`

  /** The end of one service call: the returned pair (`err` is None for nil), or a panic. */
  datatype Outcome = Reply(response: Response, err: Option<string>) | Panic(reason: PanicReason)
}
