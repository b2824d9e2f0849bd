# moving-backend order and review path, modelled in Dafny

This models the order and review data path of the moving-company backend.
A request enters at the gRPC server (or its HTTP gateway) and passes through
the auth and metrics interceptors. It then goes down through the transport,
rpc-transport and service layers to the Postgres storage adapters, and back
up. A new order is also written up as an HTML chat notification.

The model covers:

- the two enum codecs (property size, order status);
- the zero-to-absent conversion `PtrIfNotZero`;
- the two update semantics of the storage adapters:
  - the SET-clause builder, which writes every present field;
  - the coalesce/nullif statement, which keeps the stored value unless a non-empty value is supplied;
- status forcing on insert and the NotFound policies;
- the reviews adapter's lazy cache;
- the field-for-field mappings and the NotFound translation of every layer;
- filter normalisation;
- the length validators, the bearer-token check and the metrics labels;
- the server's HTTP dispatch, wire mappings and status errors;
- the notification formatter.

The database, the gRPC and Prometheus libraries, and the clock are not modelled.
What they return is an input of the model. Calls into a lower layer are
function-typed parameters, so each layer is stated against whatever the layer
below answers.

Modules, one per source file (the support modules model the Go library
behaviour the core relies on):

| module | file |
|---|---|
| `Wrappers`, `Errors`, `GoStrings`, `GoFmt`, `GoHtml`, `GoTime` | wrappers.dfy, errors.dfy, golib.dfy |
| `Store`, `Utils` | store.dfy |
| `PropertySizes`, `OrderStatuses` | enums.dfy |
| `OrderUpdate` (the patch request every layer declares) | order_update.dfy |
| `OrdersRepo`, `MovingRepo`, `ReviewsRepo` | repo_orders.dfy, repo_moving.dfy, repo_reviews.dfy |
| `OrdersService`, `MovingService`, `ReviewsService`, `ExampleService` | services.dfy |
| `TransportOrders`, `TransportReviews` | transport.dfy |
| `RpcTransport`, `RpcTransportMoving`, `RpcTransportExample` | rpctransport.dfy |
| `Validator`, `AuthInterceptor`, `MetricsInterceptor` | interceptors.dfy |
| `GrpcServer` | server.dfy |
| `TelegramBot` | telegram_bot.dfy |
| `Pipeline` (properties of the layers composed) | pipeline.dfy |

Where the code steps through state, the model does too:

- the SET-clause builder, the row loops and the notification builder are methods with loops or step-by-step writes, each proved equal to a specification function;
- the reviews adapter is a class whose `cache` field its `Reviews` method assigns.

## Model

| member | source | states |
|---|---|---|
| Errors.WrapKeepsChain | src/services/orders/service.go:45-47 | wrapping with `%w` keeps errors.Is, prefixes the message and keeps the status code |
| Errors.TranslateIs | src/services/orders/service.go:65-70 | after a layer's NotFound translation, the result is the layer's own NotFound iff the input was the lower one's (or already its own); the lower sentinel never leaks; other sentinels survive; other errors get the context prefix |
| Errors.Translate | src/services/orders/service.go:65-70 | the lower layer's NotFound becomes this layer's own sentinel; any other error keeps its identity for errors.Is and its status code, and its message gets the context prefix |
| GoStrings.TrimPrefix | src/infra/interceptors/auth.go:45 | with the prefix present, prefix + result is the input; otherwise the input is unchanged |
| GoStrings.TrimSuffix | gen/servergrpc/server/telegram_bot.go:116 | with the suffix present, result + suffix is the input; otherwise the input is unchanged |
| GoStrings.LastIndex | src/infra/interceptors/metrics.go:68 | -1 iff the character is absent; otherwise the index holds it and no later position does |
| GoStrings.ReplaceAll | src/infra/interceptors/metrics.go:25 | same length; each character equal to `from` becomes `to`, every other is kept |
| GoStrings.ByteLen | src/transport/validator/validations.go:18-24 | Go's `len`: the UTF-8 byte count, between the character count and four times it |
| GoStrings.AsciiByteLen | src/transport/validator/validations.go:18-24 | the byte length equals the character count iff the text is ASCII |
| GoFmt.Decimal | gen/servergrpc/server/telegram_bot.go:90 | the decimal text of a number is non-empty digits without a leading zero |
| GoFmt.DecimalRoundTrip | gen/servergrpc/server/telegram_bot.go:90 | reading the decimal text back gives the number |
| GoFmt.DecimalInjective | src/repositories/moving/postgres.go:117-161 | distinct placeholder numbers have distinct texts |
| GoHtml.EscapeString | gen/servergrpc/server/telegram_bot.go:86 | the escaped text has none of `<`, `>`, `"`, `'` and is no shorter |
| GoHtml.EscapeRoundTrip | gen/servergrpc/server/telegram_bot.go:86 | unescaping the five entities in the escaped text gives the original text back, `&` included |
| GoHtml.EscapePlain | gen/servergrpc/server/telegram_bot.go:86 | text without the five special characters is left as it is |
| GoTime.Unix | gen/servergrpc/server/server.go:192 | normalised nanoseconds, and the same instant as the seconds/nanoseconds given |
| GoTime.AsTime | gen/servergrpc/server/server.go:192 | normalised nanoseconds; a nil timestamp is the Unix epoch; a present one is the same instant as its seconds and nanos |
| GoTime.NewTimestamp | gen/servergrpc/server/server.go:214 | converting a time to a Timestamp and back gives the time |
| GoTime.EpochIsNotZero | gen/servergrpc/server/server.go:257 | a nil Timestamp reads as the Unix epoch, which is not Go's zero time |
| Store.FirstScanError | src/repositories/orders/postgres.go:81-97 | none iff every row scanned; otherwise the error of the first failing row |
| Store.FirstScanErrorAt | src/repositories/orders/postgres.go:86-91 | the loop's first failing row is the one FirstScanError reports |
| Utils.PtrIfNotZero | src/infra/utils/utils.go:5-11 | absent iff the value equals the zero value; otherwise the value itself |
| Utils.PtrIfNotZeroString | src/infra/utils/utils.go:5-11 | absent iff the string is empty |
| Utils.PtrIfNotZeroCode | src/infra/utils/utils.go:5-11 | absent iff the code is 0 (Unknown); every other code is kept |
| Utils.PtrIfNotZeroTime | src/infra/utils/utils.go:5-11 | absent iff the time is Go's zero time |
| Utils.PtrIfNotZeroIdempotent | src/infra/utils/utils.go:5-11 | converting again what the conversion returned changes nothing |
| PropertySizes.ToString | src/repositories/orders/property_size.go:15-32 | "unknown" iff the code is not one of 1..6; a known code's name is its entry in the name list and decodes back to it |
| PropertySizes.FromString | src/repositories/orders/property_size.go:34-51 | Unknown iff the text is not one of the six names; a known result's name is the text |
| PropertySizes.NameRoundTrip | src/repositories/orders/property_size.go:15-51 | encoding a decoded listed name gives the name |
| PropertySizes.ToStringInjective | src/repositories/orders/property_size.go:15-32 | the six known sizes have distinct names |
| PropertySizes.NormaliseText | src/repositories/orders/property_size.go:15-51 | decode then encode keeps a listed name and maps every other text to "unknown" |
| PropertySizes.DecodeEncode | src/repositories/orders/property_size.go:15-51 | encode then decode keeps a known code and maps every other code to Unknown |
| OrderStatuses.ToString | src/repositories/moving/order_status.go:13-26 | "unknown" iff the code is not one of 1..4; a known code decodes back |
| OrderStatuses.FromString | src/repositories/moving/order_status.go:28-41 | Unknown iff the text is not one of the four names |
| OrderStatuses.NameRoundTrip | src/repositories/moving/order_status.go:13-41 | encoding a decoded listed name gives the name |
| OrderStatuses.ToStringInjective | src/repositories/moving/order_status.go:13-26 | the four known statuses have distinct names |
| OrderStatuses.NormaliseText | src/repositories/moving/order_status.go:13-41 | decode then encode keeps a listed name and maps every other text to "unknown" |
| OrderStatuses.DecodeEncode | src/repositories/moving/order_status.go:13-41 | encode then decode keeps a known status and maps every other code to Unknown |
| OrderUpdate.DropZeroCode | src/services/orders/service.go:129-135 | an absent code stays absent, a present 0 becomes absent, any other code is kept |
| OrderUpdate.DropUnknownEnums | src/services/orders/service.go:117-135 | no present Unknown remains; each enum is absent iff it was absent or Unknown; the ID and the other eight fields are unchanged |
| OrderUpdate.DropUnknownEnumsIdempotent | src/rpctransport/moving/rpc.go:86-92 | a request without Unknown enums is left alone, so the mapping applied at every layer equals applying it once |
| MovingRepo.DecodeRoundTrip | src/repositories/moving/postgres.go:88-96 | decoded orders have canonical codes; an order with canonical codes survives storing by name and reading back |
| MovingRepo.InsertArgsOf | src/repositories/moving/postgres.go:37-40 | the insert carries the request's fields and status Created whatever the caller asked |
| MovingRepo.CreateOrder | src/repositories/moving/postgres.go:27-64 | a scan error is wrapped "failed to scan inserted order: "; otherwise the decoded returned row, with canonical codes |
| MovingRepo.AllOrders | src/repositories/moving/postgres.go:66-106 | the first scan error, or the iteration error, wrapped; otherwise one decoded order per row, in order (no rows is an empty list) |
| MovingRepo.Prefix | src/repositories/moving/postgres.go:117-161 | no assignment among the first k fields iff none of them is present |
| MovingRepo.Assignments | src/repositories/moving/postgres.go:113-165 | no assignment iff every optional field is absent; at most nine |
| MovingRepo.PartInAssignments | src/repositories/moving/postgres.go:117-161 | every present field's assignment is in the statement |
| MovingRepo.SetClauses | src/repositories/moving/postgres.go:117-161 | clause k of the statement names placeholder k + 1 |
| MovingRepo.Values | src/repositories/moving/postgres.go:117-161 | argument k is the value bound to placeholder k + 1 |
| MovingRepo.AfterBuilds | src/repositories/moving/postgres.go:113-161 | after the first k `if` blocks: one clause and one argument per present field among them, numbered consecutively from 1, and the counter one past them |
| MovingRepo.BuiltAll | src/repositories/moving/postgres.go:113-165 | after all nine blocks: the clauses and arguments of the present fields; no clause iff no field is present |
| MovingRepo.AppendIfPresent | src/repositories/moving/postgres.go:117-121 | one `if req.X != nil` block is one builder step |
| MovingRepo.BuildUpdate | src/repositories/moving/postgres.go:108-175 | ID 0 gives "invalid id"; no present field gives "no set clauses found"; otherwise the statement with numbered clauses in column order, `updated_at = now()` last, the id at placeholder n + 1 and as the last argument |
| MovingRepo.UpdateOrder | src/repositories/moving/postgres.go:108-182 | the same refusals; otherwise the built statement runs and its error is wrapped "failed update row \| " |
| MovingRepo.AssignmentsOverwrite | src/repositories/moving/postgres.go:117-173 | the built SET clause writes exactly the present fields, empty texts included |
| MovingRepo.UpdateOverwrites | src/repositories/moving/postgres.go:108-182 | reading the updated row back gives the stored order with every present field overwritten and updated_at refreshed |
| OrdersRepo.DecodeRoundTrip | src/repositories/orders/postgres.go:86-94 | decoded orders have canonical codes; canonical orders survive storage |
| OrdersRepo.InsertArgsOf | src/repositories/orders/postgres.go:35-38 | status Created is inserted whatever the caller asked; the other arguments are the request |
| OrdersRepo.CreateOrder | src/repositories/orders/postgres.go:25-62 | a scan error is wrapped; otherwise the decoded returned row |
| OrdersRepo.CreateOrderIsCreated | src/repositories/orders/postgres.go:25-62 | a created order has status Created, the request's fields, its size when known (Unknown otherwise) and equal timestamps |
| OrdersRepo.Orders | src/repositories/orders/postgres.go:64-108 | query, scan and iteration errors wrapped; no rows is NotFound; otherwise every row decoded in order, so newest-first rows give newest-first orders |
| OrdersRepo.OrderByID | src/repositories/orders/postgres.go:110-141 | no row is NotFound, every other scan error is wrapped "failed scan order \| ", a row is decoded |
| OrdersRepo.OrderByIDInTable | src/repositories/orders/postgres.go:110-141 | on a table keyed by id: NotFound iff no row has the id, otherwise the order with that id |
| OrdersRepo.NameOfSize | src/repositories/orders/postgres.go:149-152 | a present size is passed as its name, an absent one as NULL |
| OrdersRepo.NameOfStatus | src/repositories/orders/postgres.go:153-155 | a present status is passed as its name, an absent one as NULL |
| OrdersRepo.ApplyUpdate | src/repositories/orders/postgres.go:157-171 | the statement on the matched row: size, status, move date and additional info are replaced iff their argument is not NULL; name, email, phone, from and to iff their argument is present and non-empty; id and created_at are kept; updated_at is now |
| OrdersRepo.UpdateOrder | src/repositories/orders/postgres.go:143-184 | ID 0 gives "invalid id"; otherwise the statement runs, ok iff the store is, its error wrapped; an empty patch is not refused |
| OrdersRepo.ExecUpdate | src/repositories/orders/postgres.go:157-171 | only the row with the id changes; an unknown id changes nothing |
| OrdersRepo.UpdateImplementsPatch | src/repositories/orders/postgres.go:157-177 | the coalesce/nullif statement keeps each column unless supplied: empty texts for name, email, phone, from and to count as absent; additional info is replaced even when empty; codes are stored by name; updated_at is refreshed |
| OrdersRepo.PhoneOnlyUpdate | src/repositories/orders/postgres.go:143-184 | updating only the phone changes the phone and updated_at and nothing else |
| OrdersRepo.EmptyPatchRefreshesOnly | src/repositories/orders/postgres.go:143-184 | a patch with every field absent only refreshes updated_at |
| ReviewsRepo.ScannedRows | src/repositories/reviews/postgres.go:49-60 | the scanned reviews, one per row, in order |
| ReviewsRepo.Loaded | src/repositories/reviews/postgres.go:34-68 | a successful load has one review per row and is never empty |
| ReviewsRepo.LoadedRows | src/repositories/reviews/postgres.go:34-68 | a load keeps the rows in the store's (id) order; NotFound iff the query returned no rows and no error |
| ReviewsRepo.Postgres.constructor | src/repositories/reviews/postgres.go:22-24 | the cache starts empty |
| ReviewsRepo.Postgres.Load | src/repositories/reviews/postgres.go:34-68 | the query and row loop compute Loaded |
| ReviewsRepo.Postgres.Reviews | src/repositories/reviews/postgres.go:26-75 | a cached list is returned without a query; otherwise one query, and the cache is set iff the load succeeded (a non-empty list); the cache is never cleared |
| OrdersService.FromRepo | src/services/orders/service.go:49-60 | every field but the timestamps is copied |
| OrdersService.ToRepo | src/services/orders/service.go:33-42 | every request field is copied |
| OrdersService.CreateOrder | src/services/orders/service.go:32-61 | the copied request goes down; an error is wrapped "failed to create order \| "; the result is copied up |
| OrdersService.Orders | src/services/orders/service.go:63-91 | storage NotFound becomes the service's, other errors wrapped; one order per stored order, in order |
| OrdersService.OrderByID | src/services/orders/service.go:93-115 | NotFound translated, other errors wrapped, the order copied |
| OrdersService.UpdateOrder | src/services/orders/service.go:117-142 | the storage sees the request with Unknown enums dropped; ok iff storage is, its error wrapped |
| MovingService.FromRepo | src/services/moving/service.go:50-61 | every field but the timestamps is copied |
| MovingService.ToRepo | src/services/moving/service.go:34-43 | every request field is copied |
| MovingService.CreateOrder | src/services/moving/service.go:33-62 | copy down, wrap an error, copy up |
| MovingService.GetOrders | src/services/moving/service.go:64-88 | every error wrapped (no NotFound translation); count and order kept; an empty list stays empty |
| MovingService.UpdateOrder | src/services/moving/service.go:90-115 | Unknown enums dropped on the way down; error wrapped |
| ReviewsService.Project | src/services/reviews/service.go:40-45 | text, name, photo URL and rate are kept |
| ReviewsService.Reviews | src/services/reviews/service.go:27-49 | NotFound translated, other errors wrapped; one projected review per stored review, in order |
| ExampleService.NewService | src/services/example/service.go:27-35 | registers the name "example-service"; fails, wrapped, iff registration fails |
| ExampleService.GetServiceName | src/services/example/service.go:37-48 | the stored name, or NotFound translated, or the error wrapped "cannot auth \| " |
| ExampleService.Exists | src/services/example/service.go:50-57 | the storage is asked about the caller's service name; its answer unchanged, or its error wrapped "cannot auth \| " |
| TransportOrders.ToService | src/transport/orders/rpc.go:21-30 | every request field is copied |
| TransportOrders.FromService | src/transport/orders/rpc.go:37-50 | every field, timestamps included, is copied |
| TransportOrders.CreateOrder | src/transport/orders/rpc.go:20-51 | copy down, wrap an error "failed create order \| ", copy up |
| TransportOrders.KeepBound | src/transport/orders/rpc.go:58-70 | a time bound is kept iff it is set and not the zero time |
| TransportOrders.NormalizeFilter | src/transport/orders/rpc.go:53-98 | no filter stays none; the result is none iff nothing would be kept; otherwise status and size are carried over and exactly the non-zero bounds are kept |
| TransportOrders.NormalizeIdempotent | src/transport/orders/rpc.go:53-98 | normalising twice is normalising once; a normal filter is unchanged |
| TransportOrders.UnknownCodesKept | src/transport/orders/rpc.go:72-82 | a status pointing to Unknown is still a filter |
| TransportOrders.Orders | src/transport/orders/rpc.go:100-136 | the service sees the normalised filter; service NotFound and an empty list are both NotFound; otherwise one copied order per service order, in order |
| TransportOrders.OrderByID | src/transport/orders/rpc.go:138-162 | NotFound translated, other errors wrapped "failed get order \| " |
| TransportOrders.UpdateOrder | src/transport/orders/rpc.go:164-189 | Unknown enums dropped, other fields passed through, error wrapped |
| TransportReviews.FromService | src/transport/reviews/rpc.go:31-36 | the four review fields are copied |
| TransportReviews.Reviews | src/transport/reviews/rpc.go:18-40 | NotFound translated, other errors wrapped; order and count kept; an empty list is not NotFound |
| RpcTransport.ToService | src/rpctransport/rpc.go:26-35 | every request field is copied |
| RpcTransport.FromService | src/rpctransport/rpc.go:42-53 | every order field is copied |
| RpcTransport.CreateOrder | src/rpctransport/rpc.go:25-54 | copy down, wrap an error, copy up |
| RpcTransport.Orders | src/rpctransport/rpc.go:56-88 | NotFound translated and an empty list is NotFound; otherwise copied in order |
| RpcTransport.OrderByID | src/rpctransport/rpc.go:90-112 | NotFound translated, other errors wrapped |
| RpcTransport.UpdateOrder | src/rpctransport/rpc.go:114-139 | Unknown enums dropped, error wrapped |
| RpcTransport.ReviewFromService | src/rpctransport/rpc.go:213-218 | the four review fields are copied |
| RpcTransport.Reviews | src/rpctransport/rpc.go:200-222 | NotFound translated; the four fields projected, in order |
| RpcTransportMoving.ToService | src/rpctransport/moving/rpc.go:18-27 | every request field is copied |
| RpcTransportMoving.FromService | src/rpctransport/moving/rpc.go:34-45 | every order field is copied |
| RpcTransportMoving.CreateOrder | src/rpctransport/moving/rpc.go:17-46 | copy down, wrap an error, copy up |
| RpcTransportMoving.GetOrders | src/rpctransport/moving/rpc.go:48-72 | every error wrapped; an empty list is returned as it is; count and order kept |
| RpcTransportMoving.UpdateOrder | src/rpctransport/moving/rpc.go:74-99 | Unknown enums dropped, error wrapped |
| RpcTransportExample.MapStatus | src/rpctransport/example/rpc.go:34-43 | an error is wrapped "cannot get status \| "; otherwise REGISTERED iff the service exists |
| RpcTransportExample.Status | src/rpctransport/example/rpc.go:25-32 | the service is asked about the request's service name; a lookup error returns early, wrapped "cannot get service \| "; otherwise REGISTERED iff the service exists |
| RpcTransportExample.ServiceName | src/rpctransport/example/rpc.go:16-23 | the service's name, or its error wrapped |
| Validator.ValidServiceName | src/transport/validator/validations.go:12-16 | valid iff the name is non-empty |
| Validator.ValidClientName | src/transport/validator/validations.go:18-24 | a valid name has fewer than 100 characters; any text short enough in bytes is valid |
| Validator.ValidAddress | src/transport/validator/validations.go:49-55 | a valid address has at most 255 characters; any text short enough in bytes is valid |
| Validator.AsciiBounds | src/transport/validator/validations.go:18-55 | for ASCII text: a client name is valid iff shorter than 100, an address iff at most 255 (so the empty ones pass) |
| Validator.WideCharactersCountTwice | src/transport/validator/validations.go:18-24 | 50 two-byte characters are 100 bytes, a rejected client name |
| AuthInterceptor.Get | src/infra/interceptors/auth.go:35 | a missing key has no values |
| AuthInterceptor.Check | src/infra/interceptors/auth.go:29-48 | the call may proceed iff metadata is present, there is exactly one authorization value, it starts with "Bearer " and the rest is a configured token; a denial is one of the two Unauthenticated errors, "no auth token provided" iff metadata is missing or the value count is not one |
| AuthInterceptor.Intercept | src/infra/interceptors/auth.go:21-52 | an allowed call returns the handler's reply unchanged; a denied one returns no response and the denial |
| AuthInterceptor.DeniedIgnoresHandler | src/infra/interceptors/auth.go:29-50 | a denied call's reply does not depend on the handler and has code Unauthenticated |
| AuthInterceptor.PrefixIsCaseSensitive | src/infra/interceptors/auth.go:41-43 | for every token list and token: "bearer " (lower case) followed by anything is an invalid token, while "Bearer " followed by a configured token passes |
| MetricsInterceptor.ShortMethodName | src/infra/interceptors/metrics.go:67-73 | "unknown" without a '/'; otherwise the suffix after the last '/', which holds no '/' |
| MetricsInterceptor.ShortNameExamples | src/infra/interceptors/metrics.go:67-73 | "/orders.Orders/CreateOrder" gives "CreateOrder", no '/' gives "unknown", a trailing '/' gives "" |
| MetricsInterceptor.Subsystem | src/infra/interceptors/metrics.go:45-52 | "" without metadata; "http" iff the gateway user agent is set; "grpc" otherwise |
| MetricsInterceptor.Intercept | src/infra/interceptors/metrics.go:16-65 | the reply is the handler's, unchanged; nothing is recorded iff disabled; the error counter counts iff the handler failed; the service label is the name with every '-' replaced by '_', the other labels are the subsystem, the short method name and the status code's name |
| MetricsInterceptor.CodeLabelOk | src/infra/interceptors/metrics.go:58-61 | a success is labelled "OK"; a failure with a non-OK code never is |
| GrpcServer.GrpcError | gen/servergrpc/server/server.go:296-313 | for any code but OK (grpc refuses details on OK, and gRPCError panics): a status with the code, the message "error: " and the service error's text ("error not set" when there is none), and one ErrorInfo with the reason's text and domain "mattis.dev" |
| GrpcServer.ErrorCodes | gen/servergrpc/server/server.go:276-294 | Unauthorized, Validation, Business and Unknown errors have codes Unauthenticated, InvalidArgument, FailedPrecondition and Unknown; the custom one has its given code |
| GrpcServer.UnauthorizedError | gen/servergrpc/server/server.go:276-278 | a status with code Unauthenticated, the reason's text in its one ErrorInfo and "error: " with the error's text (or "error not set") as the message |
| GrpcServer.ValidationError | gen/servergrpc/server/server.go:280-282 | a status with code InvalidArgument, the reason's text in its one ErrorInfo and "error: " with the error's text (or "error not set") as the message |
| GrpcServer.BusinessError | gen/servergrpc/server/server.go:284-286 | a status with code FailedPrecondition, the reason's text in its one ErrorInfo and "error: " with the error's text (or "error not set") as the message |
| GrpcServer.UnknownError | gen/servergrpc/server/server.go:288-290 | a status with code Unknown, the reason's text in its one ErrorInfo and "error: " with the error's text (or "error not set") as the message |
| GrpcServer.CustomError | gen/servergrpc/server/server.go:292-294 | for any code but OK: a status with that code, the reason's text in its one ErrorInfo and "error: " with the error's text (or "error not set") as the message |
| GrpcServer.Validate | gen/servergrpc/server/server.go:315-321 | no error iff the validator accepts; otherwise InvalidArgument with reason "validation failed" and the validator's message |
| GrpcServer.HandlerErrorShape | gen/servergrpc/server/server.go:207 | a handler's failure is reported with its text as the ErrorInfo reason and the message "error: error not set" |
| GrpcServer.Serve | gen/servergrpc/server/server.go:60-79 | a nil port is ErrPortNotSpecified; a listen error is returned as it is; a serve error is wrapped |
| GrpcServer.ServeHttp | gen/servergrpc/server/server.go:81-106 | a nil port is ErrPortNotSpecified; a listener error is wrapped "error while serve http \| " |
| GrpcServer.Dispatch | gen/servergrpc/server/server.go:89-100 | to gRPC iff HTTP/2 with content type application/grpc; otherwise a 308 redirect, to the path without its last '/', iff the path is longer than one character and ends in '/'; otherwise to the gateway |
| GrpcServer.RootIsServed | gen/servergrpc/server/server.go:95-98 | "/" is never redirected |
| GrpcServer.Settled | gen/servergrpc/server/server.go:95-98 | following the redirects strips only trailing '/' characters, ends at a path that is not redirected, and never at the empty path |
| GrpcServer.Int32 | gen/servergrpc/server/server.go:212-213 | the int to int32 conversion: a value in range, congruent modulo 2^32, the identity on int32 values |
| GrpcServer.KnownCodesFit | gen/servergrpc/server/server.go:212-213 | known sizes and statuses survive the conversion |
| GrpcServer.HandlerCreateRequest | gen/servergrpc/server/server.go:189-199 | every wire field copied, the move date through AsTime |
| GrpcServer.CreatedOrder | gen/servergrpc/server/server.go:210-221 | a zero size or status is left out, every other field is set |
| GrpcServer.CreateOrder | gen/servergrpc/server/server.go:188-222 | validation first; a handler error becomes Unknown; otherwise the created order mapped back; every error is InvalidArgument or Unknown |
| GrpcServer.ListedOrder | gen/servergrpc/server/server.go:232-246 | size and status always set; otherwise the same as the create response |
| GrpcServer.CreatedAndListedAgree | gen/servergrpc/server/server.go:212-238 | the create and list mappings agree iff neither code is zero |
| GrpcServer.AllOrders | gen/servergrpc/server/server.go:224-250 | a handler error becomes Unknown; otherwise one wire order per handler order, in order |
| GrpcServer.HandlerUpdateAsWritten | gen/servergrpc/server/server.go:253-263 | the update mapping as written: the move date is PtrIfNotZero of AsTime of the wire timestamp, additional info never set |
| GrpcServer.MissingMoveDateBecomesEpoch | gen/servergrpc/server/server.go:257 | as written, a request without a move date sets it to 1970-01-01; the corrected mapping leaves it absent |
| GrpcServer.HandlerUpdate | gen/servergrpc/server/server.go:253-263 | every wire field missing or zero is absent, every other arrives unchanged; additional info is never set; no Unknown enum reaches the handler |
| GrpcServer.AsWrittenDiffersOnlyWhenMissing | gen/servergrpc/server/server.go:257 | the as-written and corrected mappings differ only in the move date, and exactly when it is missing |
| GrpcServer.UpdateOrder | gen/servergrpc/server/server.go:252-274 | on the corrected mapping HandlerUpdate (a missing move date stays absent): validation first; a handler error becomes Unknown; success iff the handler succeeds |
| GrpcServer.UpdateOrderAsWritten | gen/servergrpc/server/server.go:252-274 | the handler as written, on HandlerUpdateAsWritten: validation first, a handler error becomes Unknown, success iff the handler succeeds; it agrees with UpdateOrder when the move date is set, and otherwise hands the handler 1970-01-01 |
| TelegramBot.Render | gen/servergrpc/server/telegram_bot.go:89-115 | every part but the description ends a line |
| TelegramBot.NonEmpty | gen/servergrpc/server/telegram_bot.go:107-112 | present iff present and not empty |
| TelegramBot.Slots | gen/servergrpc/server/telegram_bot.go:89-115 | seven slots, slot i holding only the part of rank i |
| TelegramBot.Sections | gen/servergrpc/server/telegram_bot.go:89-96 | every message opens with the header, the From part and the To part |
| TelegramBot.SectionsContent | gen/servergrpc/server/telegram_bot.go:97-115 | Date iff the move date is not the zero time; Phone iff the phone is non-empty; Email and Description iff present and non-empty, each with the order's value |
| TelegramBot.SectionsInOrder | gen/servergrpc/server/telegram_bot.go:89-115 | the parts come in the order header, From, To, Date, Phone, Email, Description, each at most once |
| TelegramBot.PieceTexts | gen/servergrpc/server/telegram_bot.go:89-115 | the exact text each conditional block writes, and nothing when its condition fails |
| TelegramBot.WrittenIsConcat | gen/servergrpc/server/telegram_bot.go:88-115 | what the builder holds after k blocks is the text of the parts of the first k slots |
| TelegramBot.MessageIsWritten | gen/servergrpc/server/telegram_bot.go:88-116 | the message is the text the seven blocks write, with one trailing newline trimmed |
| TelegramBot.FormatOrderMessage | gen/servergrpc/server/telegram_bot.go:85-117 | the builder's writes produce the message: all present parts, then one trailing newline trimmed |
| TelegramBot.MessageOpening | gen/servergrpc/server/telegram_bot.go:89-96 | the message starts with the bold NEW ORDER header and the decimal id, a blank line, the From line with the escaped place, and the To label with the escaped place |
| TelegramBot.TrailingNewline | gen/servergrpc/server/telegram_bot.go:116 | at most one trailing newline is removed, and exactly one when there is no description |
| Pipeline.UpdateReachesStore | gen/servergrpc/server/server.go:252-274 | on the corrected path (HandlerUpdate): a validated wire update reaches the moving store as HandlerUpdate of the request, unchanged by the layers in between; success iff the store succeeds; a failure is Unknown |
| Pipeline.UpdateReachesStoreAsWritten | gen/servergrpc/server/server.go:252-274 | on the path as written: the store receives HandlerUpdateAsWritten of the request, unchanged by the layers in between, so a request without a move date hands the store 1970-01-01; success iff the store succeeds; a failure is Unknown |
| Pipeline.MissingMoveDateInStore | gen/servergrpc/server/server.go:257 | without a move date, the corrected path keeps the stored date; the path as written issues `move_date = 1970-01-01` |
| Pipeline.StoredStatusUnknown | src/services/orders/service.go:133-135 | through the orders service, a stored status becomes Unknown iff it already was and the request leaves it (or asks for Unknown), or the request carries a code outside the known range |

## Left out

- The database: SQL text for the coalesce statement, the pgx driver, connection pooling. The store's answers are inputs. The SQL `now()` and `time.Now` are opaque values.
- The `log.Fatal` on a failed query in the moving adapter's `AllOrders` (src/repositories/moving/postgres.go:75-78). It ends the process. `MovingRepo.AllOrders` starts from the rows the query produced.
- The reviews adapter's read/write mutex: the cache is modelled sequentially.
- How the driver encodes a size or status argument. The moving adapter passes the integer code; the model stores it by name, as the orders adapter's reads expect.
- The orders-adapter `OrderStatus` type's own file is not part of this model. It is taken to be the same codec as src/repositories/moving/order_status.go.
- Version mismatches between files, each modelled on the shape its own code uses:
  - src/transport/orders/rpc.go uses a service whose orders carry timestamps and whose `Orders` takes a filter; the orders service shown does neither;
  - src/rpctransport/rpc.go assigns plain-text emails, so it is written against a service with string emails;
  - src/services/moving/service.go calls the store's listing `GetOrders`, while the adapter shown names it `AllOrders`;
  - server.go's handler interface (`AllOrders`, a create request with a status, a string additional info) is not the one in src/rpctransport/moving/rpc.go, so `GrpcServer` declares its own handler types.
- `GrpcServer.CreateOrder`: the unconditional dereferences of the wire fields (server.go:190-198) panic when a field is missing. The model takes those fields as present.
- `GrpcServer.Validate`: the validator library is a parameter giving its verdict. The handler structs shown carry no `validate` tags, so which rule applies to which field is not modelled.
- The email and phone validators: they use DNS lookups and a phone-number library.
- `AuthInterceptor.Check`: the token set is built with `utils.ToMap`, which is not part of this model; membership in the configured list stands for it. The admin/client token split wired at bootstrap is not modelled, and no method is admin-only.
- `MetricsInterceptor.Intercept`: Prometheus registration, the histogram's durations and the clock are not modelled; what the call would record is returned.
- The server's own state is not modelled: the gRPC server, the gateway mux, health checks, `NewServer`, `ServeWithCustomListener`, `Close` and logging. `GrpcServer.ServeHttp` models the start-up result only; the per-request behaviour is `GrpcServer.Dispatch`.
- The `panic` in `gRPCError` when attaching details fails. grpc refuses details on a status with code OK, so `GRPCCustomError(codes.OK, …)` panics; `GrpcServer.GrpcError` and `GrpcServer.CustomError` require a code other than OK.
- Interceptor chaining, panic recovery, logging, tracing and the metrics exporter.
- The chat bot's transport: `NotifyNewOrder`, `NewTelegramBot`, `Start`, `Close` and the no-op bot. `TelegramBot.FormatOrderMessage` takes the `time.DateOnly` formatting as a parameter.
- Bootstrap, configuration and signal handling (cmd/main.go and the box and config packages), the example repository's thin SQL store, and the interface-only services file.
- `Validator.ValidClientName`: the contract states character-count bounds rather than the exact byte-length test, because Go counts UTF-8 bytes. The exact bounds for ASCII are in `Validator.AsciiBounds`; a non-ASCII counterexample is in `Validator.WideCharactersCountTwice`.
- `Validator.ValidAddress`: the same character-count bounds, exact for ASCII in `Validator.AsciiBounds`.
- `GoTime.Unix`: time zones and Go's monotonic clock reading are not modelled; a time is seconds and nanoseconds since year 1.
- Integer widths: IDs are unbounded naturals. The int to int32 enum conversion in the server is written out (`GrpcServer.Int32`). The int8 casts between layers preserve the known codes, and codes outside int8 are not considered.

## Findings

| source | as written | input that shows it | evidently intended | confidence | as-written member | corrected member |
|---|---|---|---|---|---|---|
| gen/servergrpc/server/server.go:257 | `PtrIfNotZero(req.GetMoveDate().AsTime())`: a missing Timestamp reads as the Unix epoch, which is not Go's zero time, so the move date is always present | an UpdateOrder request with only `id` and `name` set: the handler request carries move date 1970-01-01, and the moving store writes `move_date = $k` with that date | a missing move date stays absent, like every other missing field of the patch | not executed | GrpcServer.HandlerUpdateAsWritten, GrpcServer.MissingMoveDateBecomesEpoch, GrpcServer.UpdateOrderAsWritten, Pipeline.UpdateReachesStoreAsWritten | GrpcServer.HandlerUpdate, GrpcServer.UpdateOrder, Pipeline.UpdateReachesStore |
