# InmindAi.Workshop.Logging — a verified model of the order service core

This project models the behaviour of InmindAi.Workshop.Logging, a small ASP.NET
web service for orders and products. It models these parts:

- **The order aggregate.** An `Order` owns a hash set of `OrderLine` objects.
  Lines are told apart by object identity, so the model uses Dafny classes and
  a `set<OrderLine>`. `CreatOrder` folds `AddOrderLine` over its input.
  `AddQuantity` is a C# `+=` on an `int`, so it wraps around at 32 bits.
- **The correlation-id protocol.** A request-scoped holder keeps the current
  correlation id. The middleware adopts a non-empty first `X-Correlation-Id`
  request value, or falls back to the holder's generated id. At response start
  it writes that id into the response headers, unless downstream code already
  set the header.
- **The order and product services.** The order table is a `Store` class
  holding `map<Guid, Order>`; the product service reads a plain
  `map<Guid, Product>` passed to it. The store keeps
  the schema's constraints as an invariant: the key is the Id, `Reference` is
  unique, and every line belongs to one order. The services' own error
  handling is modelled case by case:
  - a duplicate reference becomes a 403 `ServiceException`;
  - a missing order on delete, or a missing product, becomes a 404
    `NotFoundException`;
  - a missing order on get or update becomes an `InvalidOperationException`.
- **The `/error` endpoint.** It maps the recorded exception to a problem
  response, and picks the trace id every problem response carries.

Generated Guids come from outside: the model takes them as parameters, and a
new order's id must not already be stored. Order DTOs carry their lines as a
multiset, because the lines come from enumerating a hash set, whose order is
unspecified. Listings are returned as sets, which are proved to hold one DTO
per stored entity.

The model follows the code in two places where a reader of the API might
expect otherwise:

- **Update returns no lines.** `UpdateOrderAsync` ignores the lines it is
  given. It also loads the order with `FindAsync`, which does not include the
  lines, and the sealed entity admits no lazy-loading proxy. So the DTO it
  returns has an empty line collection.
- **A missing order on get or update is a 500, not a 404.** These operations
  throw `InvalidOperationException`, which is not a `ServiceException`.
  `/error` therefore answers with a bare 500 that has no detail.

## Model

| member | source | states |
|---|---|---|
| Primitives.Wrap | InmindAi.Workshop.Logging/Domain/OrderLine.cs:8 | an integer reduces to the int32 congruent to it modulo 2^32, and in-range values are kept |
| Primitives.WrapAdd | InmindAi.Workshop.Logging/Domain/OrderLine.cs:20 | unchecked int addition: the exact sum when it fits, otherwise a value congruent to it modulo 2^32 |
| Primitives.WrapAddAssociative | InmindAi.Workshop.Logging/Domain/OrderLine.cs:18-21 | wrapping addition is associative, so two increments compose into one increment by their wrapped sum |
| Errors.Exception.Status | InmindAi.Workshop.Logging/Errors/NotFoundException.cs:3 | a NotFoundException always carries status 404 |
| Domain.OrderLine.constructor | InmindAi.Workshop.Logging/Domain/OrderLine.cs:12-16 | ProductId and Quantity are stored as given, with no validation (any int32 quantity is accepted), and OrderId stays the empty Guid |
| Domain.OrderLine.AddQuantity | InmindAi.Workshop.Logging/Domain/OrderLine.cs:18-21 | the new quantity is the wrapped sum (the exact sum or the sum shifted by 2^32); only Quantity changes |
| Domain.Order.constructor | InmindAi.Workshop.Logging/Domain/Order.cs:5-12 | a new order has an empty reference and no lines |
| Domain.Order.CreatOrder | InmindAi.Workshop.Logging/Domain/Order.cs:14-27 | the new order has the given reference, and its lines are exactly the distinct line objects supplied (none for an empty input) |
| Domain.Order.AddOrderLine | InmindAi.Workshop.Logging/Domain/Order.cs:29-32 | the line is in the set afterwards; a line already present changes nothing; no line is removed and at most one is added; Id and Reference are untouched |
| OrderProjection.LineDtos | InmindAi.Workshop.Logging/Application/Orders/OrderService.cs:54 | projecting a set of lines gives exactly one DTO per line object |
| OrderProjection.LineDtosRemove | InmindAi.Workshop.Logging/Application/Orders/OrderService.cs:60 | the projection does not depend on the order the set is enumerated in |
| OrderProjection.LineDtosOfDistinctLines | InmindAi.Workshop.Logging/Application/Orders/OrderService.cs:17 | distinct line objects built from a list of line DTOs project back to exactly that list, as a multiset |
| OrderProjection.OrderDtoOf | InmindAi.Workshop.Logging/Application/Orders/OrderService.cs:54 | an order's DTO carries its Id and Reference and one line DTO per line |
| OrderProjection.ProjectLines | InmindAi.Workshop.Logging/Application/Orders/OrderService.cs:54 | enumerating the set and selecting each line's (ProductId, Quantity) yields the projection |
| OrderProjection.ProjectOrder | InmindAi.Workshop.Logging/Application/Orders/OrderService.cs:54 | building the DTO of a loaded order yields that order's projection |
| OrderStore.Store.constructor | InmindAi.Workshop.Logging/Infrastructure/Configurations/OrderConfiguration.cs:11-17 | an empty store satisfies the key, unique-reference and line-ownership constraints |
| OrderStore.Store.Add | InmindAi.Workshop.Logging/Application/Orders/OrderService.cs:18-23 | saving fails exactly when the reference is already stored, and then nothing is persisted; otherwise the order is stored under its Id; the constraints are preserved |
| OrderStore.Store.Remove | InmindAi.Workshop.Logging/Application/Orders/OrderService.cs:40-41 | exactly that order is removed, and the constraints are preserved |
| OrderService.NewOrderLines | InmindAi.Workshop.Logging/Application/Orders/OrderService.cs:17 | one fresh, distinct line object per supplied DTO, with that DTO's product and quantity |
| OrderService.CreateOrder | InmindAi.Workshop.Logging/Application/Orders/OrderService.cs:15-30 | a taken reference fails with 403 OrderWithSameReferenceAlreadyExists and leaves the store unchanged; otherwise exactly one order is added, and the DTO returned has its id, the reference and one (ProductId, Quantity) per supplied line and equals the stored order's projection |
| OrderService.DeleteOrder | InmindAi.Workshop.Logging/Application/Orders/OrderService.cs:32-43 | a missing id fails with NotFoundException OrderNotFound and leaves the store unchanged; otherwise exactly that order is removed |
| OrderService.GetOrder | InmindAi.Workshop.Logging/Application/Orders/OrderService.cs:45-55 | a missing id fails with InvalidOperationException; otherwise the result is the stored order's projection; the store is not modified |
| OrderService.GetOrders | InmindAi.Workshop.Logging/Application/Orders/OrderService.cs:57-61 | one DTO per stored order, each its order's projection, and every stored order listed; the store is not modified |
| OrderService.UpdateOrder | InmindAi.Workshop.Logging/Application/Orders/OrderService.cs:63-75 | a missing id fails with InvalidOperationException; otherwise the supplied lines are ignored and the result is the stored Id and Reference with no lines loaded; the store is not modified |
| ProductService.GetProduct | InmindAi.Workshop.Logging/Application/Products/ProductService.cs:14-24 | succeeds exactly when the id is stored, with the stored Id, Name and Price; otherwise fails with NotFoundException ProductNotFound |
| ProductService.GetProducts | InmindAi.Workshop.Logging/Application/Products/ProductService.cs:26-30 | a DTO is listed exactly when it is the field-for-field projection of the product stored under its Id |
| ProductService.GetProductsCardinality | InmindAi.Workshop.Logging/Application/Products/ProductService.cs:28-29 | the listing holds exactly one DTO per stored product |
| ProductService.ListingAgreesWithLookup | InmindAi.Workshop.Logging/Application/Products/ProductService.cs:14-30 | a DTO is listed exactly when looking up its Id returns it |
| Correlation.CorrelationIdGenerator.constructor | InmindAi.Workshop.Logging/Correlation/CorrelationIdGenerator.cs:5 | a new holder starts with the generated, non-empty id |
| Correlation.CorrelationIdGenerator.Get | InmindAi.Workshop.Logging/Correlation/CorrelationIdGenerator.cs:6 | returns the stored id and changes nothing |
| Correlation.CorrelationIdGenerator.Set | InmindAi.Workshop.Logging/Correlation/CorrelationIdGenerator.cs:8-11 | the stored id becomes the given one |
| Correlation.SetThenGet | InmindAi.Workshop.Logging/Correlation/CorrelationIdGenerator.cs:6-11 | after two sets, Get returns the second value: the last write wins |
| Correlation.InboundCorrelationId | InmindAi.Workshop.Logging/Correlation/CorrelationIdMiddleware.cs:24-25 | an inbound id exists exactly when the header is present and its first value is non-empty, and then it is that first value |
| Correlation.ResolvedCorrelationId | InmindAi.Workshop.Logging/Correlation/CorrelationIdMiddleware.cs:22-34 | the inbound id wins, otherwise the holder's id is used; the result is never empty when the holder's id is not |
| Correlation.GetCorrelationIdTrace | InmindAi.Workshop.Logging/Correlation/CorrelationIdMiddleware.cs:22-34 | returns the resolved id; afterwards the holder holds it in both branches, and without an inbound id the holder is unchanged |
| Correlation.WithCorrelationId | InmindAi.Workshop.Logging/Correlation/CorrelationIdMiddleware.cs:39-42 | the header is always present afterwards, in some casing; it is added as the single value [id] only when no header of that name exists in any casing; a header already set, in any casing, is left as it was, and no other header changes |
| Correlation.HeaderDictionary.Add | InmindAi.Workshop.Logging/Correlation/CorrelationIdMiddleware.cs:41 | adds one header; adding a name already present in any casing is excluded, since it throws |
| Correlation.AddCorrelationId | InmindAi.Workshop.Logging/Correlation/CorrelationIdMiddleware.cs:35-45 | the response headers after the hook are the conditional insert of the correlation id |
| Correlation.WithCorrelationIdIdempotent | InmindAi.Workshop.Logging/Correlation/CorrelationIdMiddleware.cs:39-42 | running the hook again, with any id, changes nothing |
| Correlation.OtherCasingKept | InmindAi.Workshop.Logging/Correlation/CorrelationIdMiddleware.cs:39 | a correlation header set downstream as `x-correlation-id` counts as present, so the response is left unchanged and no second header is added |
| Correlation.ResponseEchoesCorrelationId | InmindAi.Workshop.Logging/Correlation/CorrelationIdMiddleware.cs:12-45 | unless downstream code set the header in some casing, the response echoes the inbound id, or otherwise the holder's generated id |
| Correlation.OnlyFirstValueConsidered | InmindAi.Workshop.Logging/Correlation/CorrelationIdMiddleware.cs:24 | later values of a multi-valued header never affect the resolved id |
| ErrorEndpoint.TraceId | InmindAi.Workshop.Logging/Program.cs:93 | the current activity's id when there is one, otherwise the request's trace identifier |
| ErrorEndpoint.Problem | InmindAi.Workshop.Logging/Program.cs:138-151 | no exception gives 500 with "An error occurred."; a ServiceException gives its status and message; any other exception gives 500 with no detail; the trace id is always attached |
| ErrorEndpoint.DetailOnlyFromServiceExceptions | InmindAi.Workshop.Logging/Program.cs:146-150 | a problem for an exception exposes a detail exactly when the exception is a ServiceException |
| ErrorEndpoint.ServiceErrorsAsProblems | InmindAi.Workshop.Logging/Program.cs:146-150 | duplicate reference gives 403 with its code; a missing order on delete or a missing product gives 404 with its code; a missing order on get or update gives a bare 500 |
| Scenarios.RepeatedCreateConflicts | InmindAi.Workshop.Logging/Application/Orders/OrderService.cs:15-30 | posting the same order twice: the first call succeeds, the second is rejected with 403, and only the first id is added |
| Scenarios.CreateTwoThenGet | InmindAi.Workshop.Logging/Application/Orders/OrderService.cs:15-55 | two orders with distinct references are both created, and reading each back returns what its creation returned |
| Scenarios.DeleteThenGet | InmindAi.Workshop.Logging/Application/Orders/OrderService.cs:32-55 | after a delete, reading the order fails with InvalidOperationException and deleting it again fails with NotFoundException |
| Scenarios.AddQuantityTwice | InmindAi.Workshop.Logging/Domain/OrderLine.cs:18-21 | two increments equal one increment by their wrapped sum, and the plain sum when nothing overflows |

## Left out

- Logging: every logger call, and the Serilog and OpenTelemetry configuration, only write logs.
- Health checks, the health UI, demo-data seeding, OpenAPI, HTTPS redirection, dependency injection and the endpoint lambdas: these are wiring that forwards to the services.
- async/Task plumbing, the middleware's call to the next delegate, and concurrency between requests.
- Guid generation (`Guid.CreateVersion7`), its time ordering and its text form: ids are parameters, and a new order id must not already be stored.
- EF Core change tracking, `Include` and foreign-key fix-up: after a save EF sets each line's `OrderId` to its order's id, and the model leaves it empty. A save that fails on the unique index leaves the order tracked in the context; the model persists nothing, and tracking is not modelled.
- Product prices are decimals in the source and reals here; they are only passed through.
- The `ServiceException` class, `ProductsErrorCodes` and the `ProductDto` record are not part of this model. Their shapes are inferred from how they are used.
- OrderService.CreateOrder: a request body whose `orderLines` is missing or null, or holds a null element, cannot be expressed by `seq<OrderLineDto>`; the source then throws ArgumentNullException (from `Select`) or NullReferenceException (in the line projection), neither a ServiceException, so `/error` answers with a bare 500 with no detail. The same holds for a missing or null `reference`: a Dafny string cannot be null, while the source stores the null and the save then fails on the non-null `Reference` column, an error that is not the unique-constraint exception it catches, so it too surfaces as a bare 500.
- Errors.ProductNotFound: the text of the product error code is assumed to equal its constant's name, by analogy with the order error codes in InmindAi.Workshop.Logging/Errors/OrdersErrorCodes.cs:5-6; the file defining it is not part of this model.
- Correlation.InboundCorrelationId: request header names are matched exactly, whereas ASP.NET header dictionaries compare names case-insensitively; a request that sends the header in another casing is treated by the model as sending none.
- Correlation.HasHeader: response header names are compared ignoring the case of ASCII letters only; the ordinal case-insensitive comparison ASP.NET uses also folds non-ASCII letters, so a downstream name that matches only through such a letter is treated by the model as a different header.
- Correlation.CorrelationIdGenerator.constructor: the generated id is a parameter, required non-empty, in place of a formatted version-7 Guid.
- OrderService.GetOrder: the message of the `InvalidOperationException` (which embeds the id) is not modelled; the `/error` mapping never shows it.
- OrderService.UpdateOrder: the message of the `InvalidOperationException` is not modelled, as above.
- OrderService.GetOrders: the listing is a set, not an ordered sequence; enumeration order is unspecified in the source, and each DTO carries a distinct Id, so nothing is lost.
- ProductService.GetProducts: the listing is a set, not an ordered sequence, for the same reason.
- ErrorEndpoint.Problem: the problem's title and type fields, and the framework's other defaults, are not modelled; only status, detail and trace id are.
