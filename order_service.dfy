/** The order service: argument checks, then load, transition and save
    against the order store. */
module OrderServices {
  import opened Wrappers
  import opened Errors
  import opened Text
  import opened ConsoleConfigs
  import opened Orders
  import opened OrderRepositories

  // ---------------------------------------------------------------- specifications over the saved orders

  /** The order `CreateOrderAsync` saves and returns when the store holds
      `orders`, or the exception it throws. */
  function CreateOrderResult(
    orders: seq<OrderSnapshot>,
    configuration: Option<ConsoleConfig>,
    customerEmail: string,
    parseAddress: AddressParser,
    id: Guid,
    now: Instant): (r: Result<OrderSnapshot, Error>)
    ensures configuration.None? ==> r == Failure(ConfigurationRequired)
    ensures configuration.Some? && IsBlank(customerEmail) ==> r == Failure(EmailRequired)
    ensures NewOrder(configuration, customerEmail, parseAddress, id, now).Failure? ==>
      r == Failure(NewOrder(configuration, customerEmail, parseAddress, id, now).error)
    ensures NewOrder(configuration, customerEmail, parseAddress, id, now).Success? ==>
      (r.Success? <==> Find(orders, id).None?) && (r.Failure? ==> r.error == DuplicateKey)
    ensures r.Success? ==>
      r.value == NewOrder(configuration, customerEmail, parseAddress, id, now).value
      && r.value.id == id && r.value.status == Pending && r.value.completedAt == None
  {
    if configuration.None? then Failure(ConfigurationRequired)
    else if IsBlank(customerEmail) then Failure(EmailRequired)
    else
      match NewOrder(configuration, customerEmail, parseAddress, id, now)
      case Failure(e) => Failure(e)
      case Success(o) => if Find(orders, id).Some? then Failure(DuplicateKey) else Success(o)
  }

  /** A successful creation adds exactly one order, the new Pending one,
      which a lookup of its id then returns; every other lookup is as before. */
  lemma CreateOrderAddsOne(
    orders: seq<OrderSnapshot>, configuration: Option<ConsoleConfig>, customerEmail: string,
    parseAddress: AddressParser, id: Guid, now: Instant, other: Guid)
    requires UniqueIds(orders)
    requires CreateOrderResult(orders, configuration, customerEmail, parseAddress, id, now).Success?
    ensures var o := CreateOrderResult(orders, configuration, customerEmail, parseAddress, id, now).value;
      && UniqueIds(orders + [o])
      && Find(orders + [o], id) == Some(o)
      && (other != id ==> Find(orders + [o], other) == Find(orders, other))
  {
    var o := CreateOrderResult(orders, configuration, customerEmail, parseAddress, id, now).value;
    AddThenFind(orders, o, id);
    AddThenFind(orders, o, other);
  }

  /** The service's own checks of the configuration and the email are the
      entity's first two checks: for an unused id the service fails exactly
      when the entity's constructor does, with the same exception. */
  lemma CreateOrderChecksMatchEntity(
    orders: seq<OrderSnapshot>, configuration: Option<ConsoleConfig>, customerEmail: string,
    parseAddress: AddressParser, id: Guid, now: Instant)
    requires Find(orders, id).None?
    ensures CreateOrderResult(orders, configuration, customerEmail, parseAddress, id, now)
         == NewOrder(configuration, customerEmail, parseAddress, id, now)
  {
  }

  /** The saved orders after `CompleteOrderAsync(id)`, or the exception it throws. */
  function CompleteOrderResult(orders: seq<OrderSnapshot>, id: Guid, now: Instant): (r: Result<seq<OrderSnapshot>, Error>)
    requires UniqueIds(orders)
    ensures Find(orders, id).None? ==> r == Failure(OrderNotFound)
    ensures Find(orders, id).Some? ==>
      && (r.Success? <==> !Find(orders, id).value.status.IsTerminal())
      && (r.Failure? ==> r.error == CompleteTransition(Find(orders, id).value, now).error)
    ensures r.Success? ==>
      && UniqueIds(r.value) && |r.value| == |orders|
      && Find(r.value, id).Some?
      && Find(r.value, id).value.status == Completed
      && Find(r.value, id).value.completedAt == Some(now)
      && SameIdentity(Find(orders, id).value, Find(r.value, id).value)
      && (forall i :: 0 <= i < |orders| && orders[i].id != id ==> r.value[i] == orders[i])
  {
    match Find(orders, id)
    case None => Failure(OrderNotFound)
    case Some(o) =>
      match CompleteTransition(o, now)
      case Failure(e) => Failure(e)
      case Success(n) =>
        ReplaceThenFind(orders, n, id);
        Success(ReplaceById(orders, n))
  }

  /** The saved orders after `CancelOrderAsync(id)`, or the exception it throws. */
  function CancelOrderResult(orders: seq<OrderSnapshot>, id: Guid): (r: Result<seq<OrderSnapshot>, Error>)
    requires UniqueIds(orders)
    ensures Find(orders, id).None? ==> r == Failure(OrderNotFound)
    ensures Find(orders, id).Some? ==>
      && (r.Success? <==> !Find(orders, id).value.status.IsTerminal())
      && (r.Failure? ==> r.error == CancelTransition(Find(orders, id).value).error)
    ensures r.Success? ==>
      && UniqueIds(r.value) && |r.value| == |orders|
      && Find(r.value, id).Some?
      && Find(r.value, id).value.status == Cancelled
      && Find(r.value, id).value.completedAt == Find(orders, id).value.completedAt
      && SameIdentity(Find(orders, id).value, Find(r.value, id).value)
      && (forall i :: 0 <= i < |orders| && orders[i].id != id ==> r.value[i] == orders[i])
  {
    match Find(orders, id)
    case None => Failure(OrderNotFound)
    case Some(o) =>
      match CancelTransition(o)
      case Failure(e) => Failure(e)
      case Success(n) =>
        ReplaceThenFind(orders, n, id);
        Success(ReplaceById(orders, n))
  }

  /** Completing or cancelling keeps the lifecycle invariant of every saved order. */
  lemma TransitionsKeepStoreInvariant(orders: seq<OrderSnapshot>, id: Guid, now: Instant)
    requires UniqueIds(orders)
    requires forall i :: 0 <= i < |orders| ==> StampedIffCompleted(orders[i])
    ensures CompleteOrderResult(orders, id, now).Success? ==>
      forall i :: 0 <= i < |orders| ==> StampedIffCompleted(CompleteOrderResult(orders, id, now).value[i])
    ensures CancelOrderResult(orders, id).Success? ==>
      forall i :: 0 <= i < |orders| ==> StampedIffCompleted(CancelOrderResult(orders, id).value[i])
  {
    if CompleteOrderResult(orders, id, now).Success? {
      var t := CompleteOrderResult(orders, id, now).value;
      forall i | 0 <= i < |orders| ensures StampedIffCompleted(t[i]) {
        if orders[i].id == id {
          FindUnique(orders, i);
          FindUnique(t, i);
        }
      }
    }
    if CancelOrderResult(orders, id).Success? {
      var t := CancelOrderResult(orders, id).value;
      forall i | 0 <= i < |orders| ensures StampedIffCompleted(t[i]) {
        if orders[i].id == id {
          FindUnique(orders, i);
          FindUnique(t, i);
        }
      }
    }
  }

  // ---------------------------------------------------------------- the service

  /** `OrderService`, holding its store and the email parser the entity uses. */
  class OrderService {
    const repository: OrderRepository
    const parseAddress: AddressParser

    constructor (repository: OrderRepository, parseAddress: AddressParser)
      ensures this.repository == repository && this.parseAddress == parseAddress
    {
      this.repository := repository;
      this.parseAddress := parseAddress;
    }

    /** `CreateOrderAsync`, with the fresh id and the current time passed in.
        Nothing is saved unless the whole result is a success. */
    method CreateOrder(configuration: Option<ConsoleConfig>, customerEmail: string, id: Guid, now: Instant)
      returns (r: Result<Order, Error>)
      requires repository.Valid()
      modifies repository
      ensures repository.Valid()
      ensures var expected := CreateOrderResult(old(repository.orders), configuration, customerEmail, parseAddress, id, now);
        && (expected.Failure? ==> r == Failure(expected.error) && repository.orders == old(repository.orders))
        && (expected.Success? ==>
              && r.Success? && fresh(r.value) && r.value.Snapshot() == expected.value
              && repository.orders == old(repository.orders) + [expected.value])
    {
      if configuration.None? {
        return Failure(ConfigurationRequired);
      }
      if IsBlank(customerEmail) {
        return Failure(EmailRequired);
      }
      var order := Order.Create(configuration, customerEmail, parseAddress, id, now);
      if order.Failure? {
        return Failure(order.error);
      }
      r := repository.Add(order.value);
    }

    /** `GetOrderByIdAsync`: the empty id is refused; otherwise the store's
        lookup is passed on as it is. */
    method GetOrderById(id: Guid) returns (r: Result<Option<OrderSnapshot>, Error>)
      requires repository.Valid()
      ensures id == EmptyGuid ==> r == Failure(InvalidOrderId)
      ensures id != EmptyGuid ==> r == Success(repository.GetById(id))
    {
      if id == EmptyGuid {
        return Failure(InvalidOrderId);
      }
      return Success(repository.GetById(id));
    }

    /** `GetAllOrdersAsync`: the store's listing, passed on as it is. */
    method GetAllOrders() returns (r: seq<OrderSnapshot>)
      requires repository.Valid()
      ensures r == repository.GetAll()
    {
      r := repository.GetAll();
    }

    /** `GetOrdersByCustomerEmailAsync`: a blank email is refused; otherwise
        the store's filtered listing is passed on as it is. */
    method GetOrdersByCustomerEmail(email: string) returns (r: Result<seq<OrderSnapshot>, Error>)
      requires repository.Valid()
      ensures IsBlank(email) ==> r == Failure(EmailRequiredForQuery)
      ensures !IsBlank(email) ==> r == Success(repository.GetByCustomerEmail(email))
    {
      if IsBlank(email) {
        return Failure(EmailRequiredForQuery);
      }
      return Success(repository.GetByCustomerEmail(email));
    }

    /** `CompleteOrderAsync`, with the current time passed in: load, mark as
        completed, save. The empty id is not refused; it is simply looked up. */
    method CompleteOrder(id: Guid, now: Instant) returns (r: Outcome<Error>)
      requires repository.Valid()
      modifies repository
      ensures repository.Valid()
      ensures var expected := CompleteOrderResult(old(repository.orders), id, now);
        && (expected.Failure? ==> r == Fail(expected.error) && repository.orders == old(repository.orders))
        && (expected.Success? ==> r == Pass && repository.orders == expected.value)
    {
      var found := repository.GetById(id);
      if found.None? {
        return Fail(OrderNotFound);
      }
      var order := new Order.Materialise(found.value);
      var transition := order.MarkAsCompleted(now);
      if transition.Fail? {
        return transition;
      }
      r := repository.Update(order);
    }

    /** `CancelOrderAsync`: load, cancel, save. */
    method CancelOrder(id: Guid) returns (r: Outcome<Error>)
      requires repository.Valid()
      modifies repository
      ensures repository.Valid()
      ensures var expected := CancelOrderResult(old(repository.orders), id);
        && (expected.Failure? ==> r == Fail(expected.error) && repository.orders == old(repository.orders))
        && (expected.Success? ==> r == Pass && repository.orders == expected.value)
    {
      var found := repository.GetById(id);
      if found.None? {
        return Fail(OrderNotFound);
      }
      var order := new Order.Materialise(found.value);
      var transition := order.Cancel();
      if transition.Fail? {
        return transition;
      }
      r := repository.Update(order);
    }
  }
}
