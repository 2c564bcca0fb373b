# A verified model of a users-and-customers CRUD service

The service keeps **users** and the **customers** each user owns in two document collections. Gin handlers sit over two services, and the services sit over two repositories.
- Handlers: `src/api/http/controllers/`.
- Services: `src/user/modules/userModules.go` and `src/customer/modules/customerModules.go`.
- Repositories: `src/*/dal/mongo/`.

Each service call returns a `Response{Status, Message, Error, Data}` envelope plus an `err`, and the handler writes the envelope with the envelope's own status.

This project models that core in Dafny:

- **Documents and validation.** `User` and `Customer` are datatypes. Their validator struct tags become total functions that list the failing fields (`validation.dfy`, `user_model.dfy`, `customer_model.dfy`).
- **The store.** A collection is a sequence in natural order. `collection.dfy` gives the operations the repositories send it: count, `$match`, first match, delete one, delete many, and the `$match`/`$group`/`$project` listing with `$slice`.
- **Repositories.** Each repository is a class whose method updates that sequence (`user_mongo.dfy`, `customer_mongo.dfy`). Each class also keeps a ghost log of the calls made on it, so a contract can say which store calls a service makes and which it does not.
- **Store failures.** A failure is a per-call `Option<Fault>` argument with three kinds:
  - `Unreachable`: no reply came; nothing changes.
  - `WriteRejected`: a server write error; nothing changes.
  - `WriteConcernFailed`: the write took effect, but an error is still returned.

  The single-document writes (InsertOne, UpdateOne, DeleteOne) return a nil result with every error. DeleteMany returns a nil result only when no reply came; otherwise it returns the count it removed.
- **Services.** Each service is a class over the repositories (`user_modules.dfy`, `customer_modules.dfy`). A call ends in an `Outcome`: either the returned pair or a panic. The code panics in three places:
  - the validation branches call `err.Error()` while `err` is nil;
  - the count and bcrypt errors go to `log.Panic`;
  - `result.ModifiedCount` is read through a nil result.
- **Handlers.** Handlers are classes over the services (`user_controller.dfy`, `customer_controller.dfy`), and `gin.dfy` gives the HTTP reply. The router installs no recovery middleware, so a panic closes the connection without a reply.
- **Query parameters** (`pagination.dfy`): `strconv.Atoi`, the defaults and the start index, as written and as intended.
- **Request sequences** (`scenarios.dfy`): whole sequences that show behaviours of the code.

These behaviours of the code are reproduced as they are:
- The e-mail count in AddUser is overwritten before it is read.
- `ModifiedCount` is tested before `err`. UpdateOne returns no result with an error, so every store error in an update panics, even when the update took effect. The "update failed" 500 branch can never be reached. With no error, "not found" is reported whenever nothing was modified.
- `updated_at` is truncated to whole seconds by the RFC 3339 round trip, so an identical update in the same second is a 404.
- Customer read and update filter on `customer_id` alone, whoever the path names as the owner.
- "No Records Found" is answered only when nothing matched at all. A page past the end is a 200 with an empty `items` list.

Two more behaviours of the code are worth noting:
- A repeated sign-up with the same e-mail is refused only because the phone also matches (`Scenarios.SignUpTwice`).
- The listing handlers compute the start index as written, in wrapping 64-bit arithmetic. A huge `page` can therefore select records from the end of the collection (see Findings, and `Scenarios.HugePageThroughHandler`).

Proved invariants:
- Every user-service write keeps phone numbers unique (`PhonesUnique`). E-mails are not kept unique (`Scenarios.SameEmailOtherPhone`).
- Every customer-service write keeps "every customer's owner exists" (`OwnersExist`). Deleting a user breaks it (`Scenarios.DeleteUserLeavesCustomers`).

## Model

| member | source | states |
|---|---|---|
| Bson.Rfc3339RoundTrip | src/user/modules/userModules.go:192 | the stored `updated_at` is a whole second, at or below the current time and less than a second before it |
| Bson.UpdateDocument | src/user/modules/userModules.go:184-193 | the `$set` document has the keys first_name (if given), last_name (if given), then updated_at, in that order, and no other key |
| Collection.Count | src/user/dal/mongo/userMongo.go:61 | CountDocuments is at most the collection size and is zero exactly when no document matches |
| Collection.Matching | src/customer/dal/mongo/customerMongo.go:45 | `$match` keeps exactly the matching documents, as many as Count, with their multiplicities |
| Collection.CountComplement | src/customer/dal/mongo/customerMongo.go:88 | every document either matches a filter or does not: the two counts add up to the collection size |
| Collection.RemoveAll | src/customer/dal/mongo/customerMongo.go:87-90 | DeleteMany removes every matching document and no other; no match remains, and the size drops by the match count |
| Collection.FirstMatch | src/user/dal/mongo/userMongo.go:45-48 | FindOne finds nothing exactly when the count is zero; otherwise it finds the first matching document in natural order |
| Collection.RemoveAt | src/user/dal/mongo/userMongo.go:83-86 | DeleteOne removes exactly one document; the documents before it stay in place and the ones after it move up by one |
| Collection.SliceStart | src/user/dal/mongo/userMongo.go:37 | a `$slice` position in range is taken as is; a negative one counts back from the end and stops at the front; one past the end selects nothing |
| Collection.Slice | src/user/dal/mongo/userMongo.go:37 | `$slice` fails exactly when a number does not fit in 32 bits or the count is not positive; otherwise it returns min(n, what remains) consecutive documents from the start position |
| Collection.GroupPage | src/user/dal/mongo/userMongo.go:29-43 | the listing pipeline emits nothing when nothing matched; otherwise one page whose total_count is the number of matches and whose items are the `$slice` window |
| Collection.PastTheEndPage | src/user/dal/mongo/userMongo.go:37 | a page past the end is one page with an empty item list, not an empty listing |
| Collection.FirstPageNonEmpty | src/user/dal/mongo/userMongo.go:37 | the first page of a non-empty listing starts with the first document |
| Validation.RequiredMinMax | src/user/models/userModel.go:12-13 | `required,min,max` passes exactly for a present value whose length is within the bounds; a missing value reports `required` |
| Validation.RequiredMin | src/user/models/userModel.go:14 | `required,min` passes exactly for a present value of at least the minimum length, with no upper bound |
| Validation.EmailRequired | src/user/models/userModel.go:15 | `email,required` passes exactly for a present, well-formed address; a missing value reports the first tag, `email` |
| Validation.Required | src/user/models/userModel.go:16 | `required` on a pointer passes exactly when it is non-nil, the empty string included |
| UserModel.FieldErrors | src/user/models/userModel.go:9-19 | the user validates exactly when every tagged field passes; only the five tagged fields are ever reported |
| UserModel.ServerFieldsUnchecked | src/user/models/userModel.go:10-18 | ID, User_id and the timestamps never affect validation |
| UserModel.PhoneUnconstrained | src/user/models/userModel.go:16 | any phone value, the empty one included, is valid; only a missing phone fails |
| UserModel.PasswordUnbounded | src/user/models/userModel.go:14 | lengthening a valid password keeps it valid |
| CustomerModel.FieldErrors | src/customer/models/customerModel.go:9-17 | the customer validates exactly when both names are present and 2 to 100 characters long |
| CustomerModel.ServerFieldsUnchecked | src/customer/models/customerModel.go:10-16 | the ID, owner, customer id and timestamps never affect validation |
| UserMongo.ApplySet | src/user/dal/mongo/userMongo.go:70-81 | `$set` changes only the names and updated_at; a document setting only updated_at leaves the names alone |
| UserMongo.UserRepository.GetAllUsers | src/user/dal/mongo/userMongo.go:29-43 | the cursor is the listing pipeline over all users, or the failure; an empty collection gives an empty cursor |
| UserMongo.UserRepository.GetUserByUserId | src/user/dal/mongo/userMongo.go:45-48 | returns the first user with that user_id, and "no documents" exactly when there is none |
| UserMongo.UserRepository.CountDocumentBasedOnKey | src/user/dal/mongo/userMongo.go:50-63 | counts the users sharing the e-mail or the phone; any other key fails with "unsupported key" before the store is asked |
| UserMongo.UserRepository.AddUserToMongoDb | src/user/dal/mongo/userMongo.go:65-68 | appends the user unless its _id is taken or the write fails; only _id is unique |
| UserMongo.UserRepository.UpdateOneUserByUserId | src/user/dal/mongo/userMongo.go:70-81 | without upsert: updates the first match only, counts it as modified only if it changed, and inserts nothing; any error comes with a nil result, even when the update took effect |
| UserMongo.UserRepository.DeleteOneUserByUserId | src/user/dal/mongo/userMongo.go:83-86 | removes the first match, so at most one document; with no error, deleted is 0 exactly when nothing matches; any error comes with a nil result |
| CustomerMongo.ApplySet | src/customer/dal/mongo/customerMongo.go:70-80 | `$set` changes only the names and updated_at, never the owner or the ids |
| CustomerMongo.CustomerRepository.GetAllCustomers | src/customer/dal/mongo/customerMongo.go:28-42 | the cursor is the listing pipeline over all customers, or the failure |
| CustomerMongo.CustomerRepository.GetCustomersByUserId | src/customer/dal/mongo/customerMongo.go:44-58 | the listing covers only the owner's customers: total_count is their number and every item has that user_id |
| CustomerMongo.CustomerRepository.GetCustomerByCustomerId | src/customer/dal/mongo/customerMongo.go:60-63 | returns the first customer with that customer_id, whoever owns it, or "no documents" |
| CustomerMongo.CustomerRepository.AddCustomerToMongoDb | src/customer/dal/mongo/customerMongo.go:65-68 | appends the customer unless its _id is taken or the write fails |
| CustomerMongo.CustomerRepository.UpdateCustomerByCustomerId | src/customer/dal/mongo/customerMongo.go:70-80 | without upsert: updates the first match only, modified only if changed, inserts nothing; any error comes with a nil result |
| CustomerMongo.CustomerRepository.DeleteCustomerByCustomerId | src/customer/dal/mongo/customerMongo.go:82-85 | removes the first match of the filter, and deleted is 0 exactly when nothing matches; its customerId argument is unused; any error comes with a nil result |
| CustomerMongo.CustomerRepository.DeleteCustomersByUserId | src/customer/dal/mongo/customerMongo.go:87-90 | removes every match and keeps the rest; deleted is the match count |
| UserModules.Stamped | src/user/modules/userModules.go:154-157 | the inserted user keeps the request's names, e-mail and phone, stores the hash in place of the password, and takes the drawn ids and timestamps |
| UserModules.ApplyUpdateDocument | src/user/modules/userModules.go:184-203 | applying the built `$set` document is exactly a partial update: given names replace stored ones, and updated_at is refreshed |
| UserModules.PhonesUniqueAfterInsert | src/user/modules/userModules.go:131-159 | inserting a user whose phone count is zero keeps phones unique |
| UserModules.PhonesUniqueAfterRemove | src/user/modules/userModules.go:239 | deleting a user keeps phones unique |
| UserModules.UserService.GetUsers | src/user/modules/userModules.go:31-65 | a listing failure is a 500 with the error; a page is a 200; "No Records Found" (500) exactly when the collection is empty |
| UserModules.UserService.GetUser | src/user/modules/userModules.go:67-89 | 200 with the first user with that user_id; not found and a store failure are both 500, told apart only by the error text |
| UserModules.UserService.AddUser | src/user/modules/userModules.go:91-175 | step by step: invalid input panics; a count error or a bcrypt failure panics; a phone match refuses with 500 and no insert; otherwise the stamped user is inserted and the reply is "user_id: …"; phones stay unique |
| UserModules.UserService.UpdateUser | src/user/modules/userModules.go:177-230 | sends the partial-update document for that user_id; any store error panics on the nil result, and the store still changes when the write took effect; without an error, nothing modified is a 404 and a change is a 200; phones stay unique |
| UserModules.UserService.DeleteUser | src/user/modules/userModules.go:232-264 | a store error is a 500; nothing deleted is a 404; otherwise the first match is removed and the reply is 200; the returned error is always nil |
| CustomerModules.ProbeError | src/customer/modules/customerModules.go:76-83 | the owner probe succeeds exactly when the store answers and a user with that user_id exists |
| CustomerModules.OwnersExistAfterRemove | src/customer/modules/customerModules.go:262-328 | removing customers keeps every remaining customer's owner present |
| CustomerModules.Stamped | src/customer/modules/customerModules.go:174-178 | the inserted customer is owned by the user in the path and takes the drawn ids and timestamps |
| CustomerModules.ApplyUpdateDocument | src/customer/modules/customerModules.go:214-233 | applying the built `$set` document is exactly a partial update of the names and updated_at |
| CustomerModules.CustomerService.GetAllCustomers | src/customer/modules/customerModules.go:34-68 | no owner probe; same reply rules as the user listing |
| CustomerModules.CustomerService.GetCustomersByUserId | src/customer/modules/customerModules.go:70-112 | a failed probe is a 500 and makes no customer call; otherwise a page of the owner's customers only, and "No Records Found" exactly when the owner has none |
| CustomerModules.CustomerService.GetCustomerByCustomerId | src/customer/modules/customerModules.go:114-144 | a failed probe is a 500; otherwise the first customer with that customer_id, owned by anyone |
| CustomerModules.CustomerService.AddCustomerByUserId | src/customer/modules/customerModules.go:146-196 | probe, then validation (invalid input panics), then insert of the stamped customer with the path's user as owner; every owner stays present |
| CustomerModules.CustomerService.UpdateCustomerByCustomerId | src/customer/modules/customerModules.go:198-260 | probe, then the partial update of the first customer with that customer_id; any store error after the probe panics; without an error, 404 when nothing changed and 200 otherwise; owners never change |
| CustomerModules.CustomerService.DeleteCustomerByCustomerId | src/customer/modules/customerModules.go:262-294 | no probe; removes the first customer with that customer_id; 500, 404 or 200; the returned error is always nil |
| CustomerModules.CustomerService.DeleteCustomersByUserId | src/customer/modules/customerModules.go:296-328 | no probe; removes every customer of the user, so none is left; 404 when there were none |
| Pagination.Wrap64 | src/api/http/controllers/userController.go:33 | Go's 64-bit int arithmetic: the result is a 64-bit value congruent to the exact one, and equal to it when it fits |
| Pagination.Atoi | src/api/http/controllers/userController.go:24 | strconv.Atoi accepts only a sign and digits within 64 bits; the empty string (a missing parameter) and any other character are errors |
| Pagination.AtoiItoa | src/api/http/controllers/userController.go:24-31 | Atoi reads back every 64-bit integer printed in decimal |
| Pagination.PositiveOr | src/api/http/controllers/userController.go:24-31 | the count is the parsed value when it is at least 1, and the default otherwise; it is always at least 1 |
| Pagination.PositivePassesThrough | src/api/http/controllers/userController.go:24-27 | any positive 64-bit recordPerPage passes through: there is no upper bound |
| Pagination.NonPositiveDefaults | src/api/http/controllers/userController.go:24-31 | a missing or non-positive value gives the default (10 records, page 1) |
| Pagination.PaginateAsWritten | src/api/http/controllers/userController.go:24-33 | the handlers' computation, with the product wrapped to 64 bits |
| Pagination.Paginate | src/api/http/controllers/userController.go:24-33 | corrected: recordPerPage and page are at least 1, startIndex is not negative, and the window ends where the requested page ends |
| Pagination.AsWrittenAgreesWithoutOverflow | src/api/http/controllers/customerController.go:59 | the as-written and corrected computations agree whenever the product fits in 64 bits |
| Pagination.AsWrittenStartIndexWraps | src/api/http/controllers/userController.go:33 | recordPerPage=2 and page=9223372036854775807 give startIndex -4 as written |
| Gin.Render | src/api/http/controllers/userController.go:36-42 | the status written is the response's own status, whether or not err is set; a panic writes nothing |
| Gin.BindFailed | src/api/http/controllers/userController.go:68-71 | a body that does not bind is a 400 carrying the bind error and "Error occured while binding JSON" |
| UserController.UserController.GetUsersHandler | src/api/http/controllers/userController.go:22-44 | the service is called with the paging arguments as written, the start index wrapped to 64 bits; the reply is the 500 of a failed listing, the 500 "No Records Found" of an empty collection, or the 200 page |
| UserController.UserController.GetUserHandler | src/api/http/controllers/userController.go:46-60 | forwards the path's user_id; the reply is 200 exactly when that user exists and the store answers |
| UserController.UserController.AddUserHandler | src/api/http/controllers/userController.go:62-83 | a bind failure is a 400 and makes no store call; invalid input drops the connection; the clean path is a 200 that adds one user |
| UserController.UserController.UpdateUserHandler | src/api/http/controllers/userController.go:85-106 | a bind failure is a 400 and makes no store call; otherwise it forwards user_id and the body's names; any store error drops the connection; without one the reply is 200 or 404 |
| UserController.UserController.DeleteUserHandler | src/api/http/controllers/userController.go:108-122 | forwards user_id; the reply is 200 exactly when a user was deleted without error |
| CustomerController.CustomerController.GetCustomersHandler | src/api/http/controllers/customerController.go:22-44 | the service is called with the paging arguments as written, the start index wrapped to 64 bits; the reply is the 500 of a failed listing, the 500 "No Records Found" of an empty collection, or the 200 page |
| CustomerController.CustomerController.GetCustomersByUserIdHandler | src/api/http/controllers/customerController.go:46-70 | forwards user_id and the paging as written, the start index wrapped to 64 bits; a failed probe is its 500; otherwise the 500 of a failed listing or the 200 page of only that user's customers |
| CustomerController.CustomerController.GetCustomerByCustomerIdHandler | src/api/http/controllers/customerController.go:72-87 | forwards user_id to the probe and customer_id to the fetch; a 200 carries a customer with that customer_id |
| CustomerController.CustomerController.AddCustomerByUserIdHandler | src/api/http/controllers/customerController.go:89-112 | a bind failure is a 400 and makes no store call; otherwise it probes the path's user and inserts the stamped customer |
| CustomerController.CustomerController.UpdateCustomerByCustomerIdHandler | src/api/http/controllers/customerController.go:114-136 | a bind failure is a 400 and makes no store call; otherwise it probes user_id and updates by customer_id |
| CustomerController.CustomerController.DeleteCustomerByCustomerIdHandler | src/api/http/controllers/customerController.go:138-152 | the path's user_id is never read: only customer_id reaches the store |
| CustomerController.CustomerController.DeleteCustomersByUserId | src/api/http/controllers/customerController.go:154-168 | forwards user_id; afterwards that user has no customers unless the write failed |
| Scenarios.SignUpTwice | src/user/modules/userModules.go:131-174 | the same sign-up twice: the first is added, the second is refused (by the phone count), and one user is stored |
| Scenarios.SameEmailOtherPhone | src/user/modules/userModules.go:112-143 | a second user with the same e-mail and a new phone is added, so e-mails are not unique |
| Scenarios.ListEmptyCollection | src/user/modules/userModules.go:51-57 | listing an empty collection is a 500 "No Records Found" for any query |
| Scenarios.RepeatedUpdateWithinSecond | src/user/modules/userModules.go:192-212 | an identical second update within the same second is a 404 "not found" |
| Scenarios.DeleteUserLeavesCustomers | src/user/modules/userModules.go:232-263 | deleting a user leaves its customers stored and ownerless |
| Scenarios.ReadCustomerThroughOtherUser | src/customer/modules/customerModules.go:121-143 | a customer is returned through another existing user's path |
| Scenarios.WrappedStartIndexReadsFromTheEnd | src/api/http/controllers/userController.go:33 | with the wrapped index, a page far past the end returns two of the last four records; the corrected index makes the listing fail |
| Scenarios.HugePageThroughHandler | src/api/http/controllers/userController.go:22-44 | `GET /users?recordPerPage=2&page=9223372036854775807` over four or more users is a 200 holding the 4th- and 3rd-last users |

## Findings

| source | as written | input that shows it | evidently intended | confidence | as-written member | corrected member |
|---|---|---|---|---|---|---|
| src/api/http/controllers/userController.go:33 | `startIndex := (page - 1) * recordPerPage` in Go's 64-bit `int`, which wraps (the same line is at customerController.go:33 and :59) | `?recordPerPage=2&page=9223372036854775807`: startIndex is -4, which `$slice` reads from the end, so the page holds the 4th- and 3rd-last records | startIndex is never negative, and the window ends where the requested page ends | high; not executed | Pagination.AsWrittenStartIndexWraps | Pagination.Paginate |

The handler models compute the start index as written (`Pagination.PaginateAsWritten`), so they reproduce the wrap. `Scenarios.HugePageThroughHandler` shows it at the handler. `Pagination.Paginate` is the corrected computation, and its property is proved. `Pagination.AsWrittenAgreesWithoutOverflow` shows the two agree whenever the product fits in 64 bits.

## Left out

- bcrypt (`HashPassword`, cost 14) and the validator's e-mail syntax check are parameters of the user service (`hash`, `isEmail`). Neither algorithm is modelled.
- `VerifyPassword` (src/user/modules/userModules.go:274-285) is called by no route and is not modelled.
- `primitive.NewObjectID()`, `uuid.New()` and `time.Now()` are the `Fresh` and `now` arguments. Time is whole milliseconds, the precision BSON stores.
- The 100-second request context, a lost connection and any server error are all a `Fault` argument of the call that meets them. Each call's fault is independent.
- Concurrency is not modelled, including the race between AddUser's count and its insert.
- `result.All` failing and calling `log.Fatal` (which ends the process) is not modelled. The documents the model stores always decode.
- The 16 MB document limit of `$group`/`$push` is not modelled. A listing of a very large collection fails in the real store but not in the model.
- Store error texts are abbreviated: the duplicate-key message and the `$slice` argument errors. Only their presence and where they appear in a reply are modelled.
- `time.Parse` of a year outside 0000-9999 fails and yields the zero time. The model truncates every time to the second.
- JSON binding is a `Result` argument: `Err` carries gin's bind error. Field decoding, JSON rendering of the envelope and the route table in src/cmd/main.go are not modelled.
- UserController.UserController.AddUserHandler: states the bind failure, the dropped connection and the clean success only. The full outcome table is the contract of `UserModules.UserService.AddUser`.
- UserController.UserController.UpdateUserHandler: states the forwarded update document, the dropped connection and the 200-or-404 split only. The exact statuses are the contract of `UserModules.UserService.UpdateUser`.
- CustomerController.CustomerController.AddCustomerByUserIdHandler: states the forwarded probe and insert only. The statuses are the contract of `CustomerModules.CustomerService.AddCustomerByUserId`.
- CustomerController.CustomerController.UpdateCustomerByCustomerIdHandler: states the forwarded probe and update only. The statuses are the contract of `CustomerModules.CustomerService.UpdateCustomerByCustomerId`.
- UserModules.UserService.UpdateUser: rests on how the driver behaves, and the driver is not part of this model. It assumes that `UpdateOne` (like `InsertOne` and `DeleteOne`) returns a nil result with every error, both the server's write error (`WriteRejected`) and a write-concern error after the write took effect (`WriteConcernFailed`). Under that assumption every store error panics, and the "update failed" branch at userModules.go:214-222 is dead.
- CustomerModules.CustomerService.UpdateCustomerByCustomerId: rests on the same driver assumption, and the "update failed" branch at customerModules.go:244-252 is dead under it.
