# Retro console orders: the order lifecycle and pricing engine

A Dafny model of the C# back end of a retro-console configurator. A
customer picks a console type, a number of controllers, HDMI and an
optional custom colour. The back end validates that configuration, builds
an order with a fixed price, saves it, and later completes or cancels it.

The model follows the four core classes:

- `console_config.dfy` (module `ConsoleConfigs`): the `ConsoleConfig` value
  object. It covers constructor validation, `IsValidHexColor`, `Equals` and
  `GetHashCode`. All of it is pure, so all of it is functions and lemmas.
- `order.dfy` (module `Orders`): the `Order` entity. The constructor, the
  price calculation and the two transitions are pure functions over an
  `OrderSnapshot` value. These functions specify the class `Order`, whose
  `MarkAsCompleted` and `Cancel` change `status` and `completedAt` in place.
  Lemmas cover the lifecycle over any sequence of calls.
- `order_repository.dfy` (module `OrderRepositories`): `OrderRepository` is a
  class over an in-memory collection of saved orders. No two saved orders
  share an id. The three reads are functions over the collection; `Add`,
  `Update` and `Delete` are methods that replace it.
- `order_service.dfy` (module `OrderServices`): `OrderService` is a class
  that holds its store. Each state-changing operation is a method, proved
  equal to a specification function over the saved orders, and the
  properties are proved about those functions.
- `common.dfy`: `Option`/`Result`/`Outcome` for C# nulls and exceptions, one
  `Error` constructor per exception message, and .NET's
  `string.IsNullOrWhiteSpace`.

Representation choices:

- Prices are whole cents. The source uses exact `decimal` amounts with two
  places, so 199.99 is 19999.
- `Guid` is a 128-bit number, and `Guid.Empty` is 0.
- `DateTime` is a tick count.
- The console type is a 32-bit integer with five named values, NES = 1 to
  PlayStation = 5. The API casts any integer to the enum, so
  `UnknownConsoleType` can really happen. The C# enum files
  (`src/Domain/Enums`) are not part of this model. The codes follow the
  frontend's enum at `src/frontend/src/app/models/console-config.model.ts`.
- `Guid.NewGuid()` and `DateTime.UtcNow` are parameters (`id`, `now`).
- .NET's `MailAddress` parser is a parameter of type `string -> Option<string>`.
  It gives `None` where the constructor throws, and otherwise the parsed
  `Address`.
- `HashCode.Combine` is a parameter, because .NET seeds it per process.
- The store holds each order's saved state as a value. The source runs on
  Entity Framework's in-memory provider with one context per request
  (`src/API/Program.cs:28-35`). Complete and cancel follow the source: a
  lookup, a fresh `Order` entity built from the saved state, the transition
  on that entity, then `Update`.

Three behaviours of the code that the model pins down:

- `IsValidHexColor` trims every leading `#`
  (`src/Domain/ValueObjects/ConsoleConfig.cs:46`), so `"##AABBCC"` is valid.
  This is proved in `ValidHexColorShape` and `HashPrefixedColorsAreValid`.
- `OrdersController` casts any request integer to `ConsoleType`, so the
  unknown-console-type exception of `CalculateTotalPrice`
  (`src/Domain/Entities/Order.cs:74`) is reachable; `NewOrder` and
  `CalculateTotalPrice` model it.
- Adding an order whose id is already saved throws `DuplicateKey`, and
  updating an order whose id is not saved throws `ConcurrencyConflict`.
  Neither changes the store.

## Model

| member | source | states |
|---|---|---|
| `ConsoleConfigs.NewConsoleConfig` | src/Domain/ValueObjects/ConsoleConfig.cs:18-39 | Succeeds exactly when 1 ≤ controllers ≤ 4 and, if a custom colour is chosen, the colour is present and valid. The controller check comes first, so a bad count is reported even when the colour is also bad. A null or blank colour gives "required"; any other bad colour gives "invalid format". On success all five fields equal the arguments, the colour verbatim, and the result is `Valid()`. |
| `ConsoleConfigs.IsValidHexColor` | src/Domain/ValueObjects/ConsoleConfig.cs:41-48 | A valid colour is at least six characters long, ends in six characters from 0-9, A-F, a-f, and everything before them is `#`. The converse is `ValidHexColorShape`. |
| `ConsoleConfigs.TrimStart` | src/Domain/ValueObjects/ConsoleConfig.cs:46 | The result is a suffix of the input. Everything removed is `#`, and the result does not start with `#`. |
| `ConsoleConfigs.TrimStartDropsRun` | src/Domain/ValueObjects/ConsoleConfig.cs:46 | Trimming `c` from a run of `c` followed by text that does not start with `c` yields exactly that text. |
| `ConsoleConfigs.ValidHexColorShape` | src/Domain/ValueObjects/ConsoleConfig.cs:41-48 | A colour is valid exactly when it is a run of `#` of any length followed by exactly six characters from 0-9, A-F, a-f. |
| `ConsoleConfigs.HashPrefixedColorsAreValid` | src/Domain/ValueObjects/ConsoleConfig.cs:46-47 | `"#AABBCC"` and `"##AABBCC"` are both valid. |
| `ConsoleConfigs.MalformedColorsAreInvalid` | src/Domain/ValueObjects/ConsoleConfig.cs:41-47 | `"12345"`, `"#GGGGGG"`, `"AABBCC#"`, the empty string and a blank string are invalid. |
| `ConsoleConfigs.ColorIgnoredWithoutCustomColor` | src/Domain/ValueObjects/ConsoleConfig.cs:28-38 | Without a custom colour, any colour value, including an invalid one or null, is accepted and stored unchanged. |
| `ConsoleConfigs.Equals` | src/Domain/ValueObjects/ConsoleConfig.cs:50-60 | True exactly when the argument is a `ConsoleConfig` equal in all five fields (`None` stands for null or any other object). This is the datatype's structural equality, with the colour compared case-sensitively. |
| `ConsoleConfigs.EqualsIsEquivalence` | src/Domain/ValueObjects/ConsoleConfig.cs:50-60 | `Equals` is reflexive, symmetric and transitive. |
| `ConsoleConfigs.GetHashCode` | src/Domain/ValueObjects/ConsoleConfig.cs:62-65 | Any configuration `Equals` to `c` gets the same hash as `c`, for any combiner: the hash depends only on the five fields `Equals` compares. |
| `ConsoleConfigs.EqualsImpliesEqualHashCodes` | src/Domain/ValueObjects/ConsoleConfig.cs:62-65 | Configurations that are `Equals` have equal hash codes, for any hash combiner. |
| `Orders.BasePrice` | src/Domain/Entities/Order.cs:67-75 | A base price exists exactly for the five known console types, and it lies between 199.99 and 349.99. |
| `Orders.IsValidEmail` | src/Domain/Entities/Order.cs:84-95 | An email is valid exactly when the address parser accepts it and gives back the very same string; a parse failure, the C# exception, makes it invalid. |
| `Orders.CalculateTotalPrice` | src/Domain/Entities/Order.cs:65-82 | Fails with "unknown console type" exactly when the type is not one of the five. For a valid configuration the price is between 239.98 and 589.93. |
| `Orders.PriceExample` | src/Domain/Entities/Order.cs:65-82 | An NES with two controllers and no extras costs 279.97. |
| `Orders.PriceIsAdditive` | src/Domain/Entities/Order.cs:77-81 | One more controller adds exactly 39.99, HDMI adds 49.99 and a custom colour adds 29.99, whatever else is chosen. |
| `Orders.NewOrder` | src/Domain/Entities/Order.cs:23-40 | The checks run in order: null configuration, then blank email, then email format, then console type. Each failure gives its own exception and no order. On success the order has the given id, configuration, email and creation time, status Pending, no completion time, and the calculated price. |
| `Orders.NewOrderPriceBounds` | src/Domain/Entities/Order.cs:65-82 | An order made from a `Valid()` configuration is priced between 239.98 and 589.93. |
| `Orders.CompleteTransition` | src/Domain/Entities/Order.cs:42-52 | From Completed it fails with "already completed"; from Cancelled it fails with its own error. It succeeds exactly from a non-terminal status, Processing included. Success sets status Completed and the completion time to `now`, and changes none of the five constructor-set properties. |
| `Orders.CancelTransition` | src/Domain/Entities/Order.cs:54-63 | From Completed and from Cancelled it fails, each with its own error. Otherwise it sets status Cancelled, leaves the completion time as it was, and changes none of the five constructor-set properties. |
| `Orders.RunPreservesInvariants` | src/Domain/Entities/Order.cs:34-63 | Over any sequence of calls, "completion time present exactly when Completed" is preserved, the five constructor-set properties never change, and Processing is never entered. |
| `Orders.TerminalIsFinal` | src/Domain/Entities/Order.cs:42-63 | From Completed or Cancelled, every later sequence of calls leaves the order exactly as it is. |
| `Orders.FirstCallDecides` | src/Domain/Entities/Order.cs:42-63 | From Pending, the first call decides the final status for good: Completed if it was a completion, Cancelled if it was a cancellation. |
| `Orders.CompletionNotBeforeCreation` | src/Domain/Entities/Order.cs:34-51 | If no completion call is timed before creation, the recorded completion time is never before the creation time. |
| `Orders.ReachableOrders` | src/Domain/Entities/Order.cs:23-63 | Take any order the constructor produces, followed by any calls. It has a completion time exactly when Completed, is never Processing, and keeps its constructor-set properties. |
| `Orders.Order.Materialise` | src/Domain/Entities/Order.cs:16-21 | The entity the store builds from a saved order has exactly that saved state. |
| `Orders.Order.Create` | src/Domain/Entities/Order.cs:23-40 | The step-by-step constructor gives a fresh entity exactly when `NewOrder` succeeds, in exactly that state; otherwise it gives the same exception. |
| `Orders.Order.MarkAsCompleted` | src/Domain/Entities/Order.cs:42-52 | The entity's new state and outcome are those of `CompleteTransition`. A failure changes nothing. |
| `Orders.Order.Cancel` | src/Domain/Entities/Order.cs:54-63 | The entity's new state and outcome are those of `CancelTransition`. A failure changes nothing. |
| `OrderRepositories.Find` | src/Infrastructure/Repositories/OrderRepository.cs:17-20 | Finds an order exactly when one with that id is saved. What it returns is a saved order with that id. |
| `OrderRepositories.FindUnique` | src/Infrastructure/Repositories/OrderRepository.cs:17-20 | With unique ids, a lookup of a saved order's id returns that very order. |
| `OrderRepositories.UniqueIdsOccurOnce` | src/Infrastructure/Repositories/OrderRepository.cs:22-27 | With unique ids, every saved order occurs exactly once. |
| `OrderRepositories.Insert` | src/Infrastructure/Repositories/OrderRepository.cs:25 | Inserting into a newest-first sequence keeps it newest-first and adds exactly that one order. |
| `OrderRepositories.SortNewestFirst` | src/Infrastructure/Repositories/OrderRepository.cs:24-26 | The result is newest-first and a permutation of the input. |
| `OrderRepositories.WithEmail` | src/Infrastructure/Repositories/OrderRepository.cs:32 | Keeps every occurrence of each order whose email equals the argument exactly, and drops every other order. |
| `OrderRepositories.ReplaceById` | src/Infrastructure/Repositories/OrderRepository.cs:46 | Same length and same ids at every position. The entry with the new state's id becomes that state; every other entry is unchanged. |
| `OrderRepositories.RemoveById` | src/Infrastructure/Repositories/OrderRepository.cs:55 | Keeps exactly the orders whose id differs from the argument. If no saved order has that id, nothing changes. |
| `OrderRepositories.AddThenFind` | src/Infrastructure/Repositories/OrderRepository.cs:37-42 | Adding an order with a new id keeps ids unique. A lookup of that id then returns exactly the added state, and every other lookup is as before. |
| `OrderRepositories.ReplaceThenFind` | src/Infrastructure/Repositories/OrderRepository.cs:44-48 | Replacing a saved order keeps ids unique. A lookup of its id then returns the new state, and every other lookup is as before. |
| `OrderRepositories.RemoveKeepsUniqueIds` | src/Infrastructure/Repositories/OrderRepository.cs:50-58 | Removing an id keeps ids unique. |
| `OrderRepositories.RemoveThenFind` | src/Infrastructure/Repositories/OrderRepository.cs:50-58 | After removing an id, a lookup of that id finds nothing and every other lookup is as before. |
| `OrderRepositories.OrderRepository.constructor` | src/API/Program.cs:28-29 | The named in-memory database starts empty, and an empty store satisfies `Valid()`, the unique-id invariant. |
| `OrderRepositories.OrderRepository.GetById` | src/Infrastructure/Repositories/OrderRepository.cs:17-20 | Returns an order exactly when one with that id is saved, and then that saved order. |
| `OrderRepositories.OrderRepository.GetAll` | src/Infrastructure/Repositories/OrderRepository.cs:22-27 | Every saved order exactly once, and nothing else, newest first. |
| `OrderRepositories.OrderRepository.GetByCustomerEmail` | src/Infrastructure/Repositories/OrderRepository.cs:29-35 | Exactly the saved orders whose email equals the argument, compared exactly and case-sensitively, each once and newest first. |
| `OrderRepositories.OrderRepository.Add` | src/Infrastructure/Repositories/OrderRepository.cs:37-42 | A new id appends the entity's state and returns the same entity. A saved id throws and leaves the store unchanged. Ids stay unique. |
| `OrderRepositories.OrderRepository.Update` | src/Infrastructure/Repositories/OrderRepository.cs:44-48 | A saved id has its state replaced and every other order is unchanged. An id that is not saved throws and leaves the store unchanged. |
| `OrderRepositories.OrderRepository.Delete` | src/Infrastructure/Repositories/OrderRepository.cs:50-58 | Removes the order with that id if there is one. Otherwise it changes nothing, and other orders are untouched either way. |
| `OrderServices.CreateOrderResult` | src/Application/Services/OrderService.cs:17-27 | A null configuration or a blank email fails before the store is consulted. A constructor failure passes through unchanged. A used id fails with `DuplicateKey`. On success the result is the constructor's new Pending order with the given id. |
| `OrderServices.CreateOrderAddsOne` | src/Application/Services/OrderService.cs:25-26 | A successful creation adds exactly the one new order. A lookup of its id then returns it, and every other lookup is as before. |
| `OrderServices.CreateOrderChecksMatchEntity` | src/Application/Services/OrderService.cs:19-25 | For an unused id, the service fails exactly when the entity's constructor does, with the same exception: its own two checks repeat the constructor's first two. |
| `OrderServices.CompleteOrderResult` | src/Application/Services/OrderService.cs:50-58 | An absent id fails with "not found". A present order fails with its transition's error exactly when it is Completed or Cancelled. Otherwise that order, and only it, becomes Completed at `now`; every other position is unchanged and ids stay unique. |
| `OrderServices.CancelOrderResult` | src/Application/Services/OrderService.cs:60-68 | The same pattern as completion, with `Cancel`: the target becomes Cancelled, its completion time is unchanged, and every other order is unchanged. |
| `OrderServices.TransitionsKeepStoreInvariant` | src/Application/Services/OrderService.cs:50-68 | If every saved order has a completion time exactly when Completed, that still holds after a successful completion or cancellation. |
| `OrderServices.OrderService.constructor` | src/Application/Services/OrderService.cs:12-15 | The service holds the given store. |
| `OrderServices.OrderService.CreateOrder` | src/Application/Services/OrderService.cs:17-27 | Returns a fresh entity in the state `CreateOrderResult` gives and appends exactly that state to the store. On failure it throws the same exception and the store is unchanged. |
| `OrderServices.OrderService.GetOrderById` | src/Application/Services/OrderService.cs:29-35 | The empty id fails with "invalid id". Any other id returns the store's lookup as it is, and the store is not modified. |
| `OrderServices.OrderService.GetAllOrders` | src/Application/Services/OrderService.cs:37-40 | Returns the store's full listing as it is. |
| `OrderServices.OrderService.GetOrdersByCustomerEmail` | src/Application/Services/OrderService.cs:42-48 | A blank email fails with "email is required". Any other email returns the store's filtered listing as it is. |
| `OrderServices.OrderService.CompleteOrder` | src/Application/Services/OrderService.cs:50-58 | The store becomes what `CompleteOrderResult` gives. On failure the store is unchanged, so `Update` is never reached. The empty id is not refused; it is looked up like any other. |
| `OrderServices.OrderService.CancelOrder` | src/Application/Services/OrderService.cs:60-68 | The store becomes what `CancelOrderResult` gives. On failure the store is unchanged. |

## Left out

- Asynchrony: every `async` call is modelled as a synchronous step. `Guid.NewGuid()` and `DateTime.UtcNow` are parameters, so id uniqueness and clock monotonicity are the caller's business. `CompletionNotBeforeCreation` assumes the clock does not run backwards.
- `System.Net.Mail.MailAddress` is .NET's own address parser. It is a parameter, so whether `"user@example.com"` is accepted and `"not-an-email"` rejected is not provable here.
- `char.IsDigit` also accepts non-ASCII Unicode decimal digits. The model accepts only 0-9, so for example an Arabic-Indic digit in a colour is rejected here but accepted by the source.
- `HashCode.Combine`'s actual mixing is a parameter. Only "same fields give the same hash" is stated.
- Entity Framework change tracking and object identity: the store holds values, and each operation works on a fresh entity. Two live entities aliasing the same saved order are not modelled.
- Backend failures other than a duplicate key on add and a missing row on update. Examples are a storage outage, or `Update` of an entity with the empty key, which the provider would treat as an insert.
- `OrderRepositories.OrderRepository.GetAll`: promises newest-first and each order once. It does not fix the order among orders with equal `CreatedAt`; the model's sort keeps insertion order there, which a relational provider need not do.
- `OrderRepositories.OrderRepository.GetByCustomerEmail`: the same caveat on ties as `GetAll`.
- `OrderRepositories.OrderRepository.Delete`: the model states which orders remain, not their order in the collection. Only the listings, which sort anyway, expose that order.
- `Orders.NewOrder`, `Orders.Order.Create`, `OrderServices.CreateOrderResult` and `OrderServices.OrderService.CreateOrder` accept `id == Guid.Empty`, which `Guid.NewGuid()` never returns. With that id an order is saved under the empty key; `GetOrderById` then refuses the id while `CompleteOrder` and `CancelOrder` find it. Entity Framework would instead generate a key on `Add`. The model does not exclude this case.
- `OrderRepositories.OrderRepository.constructor`: the source builds a new repository per request (`src/API/Program.cs:32`) around a context over the shared in-memory database, so a later request's repository already sees every earlier order. The model has one long-lived `OrderRepository` object that stands for that database; `OrderService` receives it, and the per-request wrapper is not modelled.
- Null checks on constructor arguments (`OrderService`, `OrderRepository`): Dafny references are never null.
- A null `customerEmail`: the parameter is a non-nullable `string` here. In the source a null is reported like a blank email.
- Database mapping (`RetroConfiguratorDbContext`): maximum lengths, decimal precision and indexes. The in-memory provider does not enforce them, and the domain does not check them.
- `OrdersController`, `Program`, DTOs, the Stripe payment wrapper and the Angular frontend are plumbing or foreign calls. The only thing taken from the controller is that any integer can become a console type.
