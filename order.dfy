/** The order entity: validated creation with a fixed price, and the
    Pending -> {Completed | Cancelled} lifecycle. */
module Orders {
  import opened Wrappers
  import opened Errors
  import opened Text
  import opened ConsoleConfigs

  /** A 128-bit identifier; `Guid.Empty` is all zero bits. */
  newtype Guid = x: int | 0 <= x < 0x1_0000_0000_0000_0000_0000_0000_0000_0000

  const EmptyGuid: Guid := 0

  /** A `DateTime` as a count of ticks. */
  type Instant = int

  /** A decimal amount with two places, as a whole number of cents. */
  type Cents = int

  /** `Processing` is a legal value that no operation ever produces. */
  datatype OrderStatus = Pending | Processing | Completed | Cancelled {
    predicate IsTerminal() {
      this == Completed || this == Cancelled
    }
  }

  /** The state of one order: every property of the entity, as a value. */
  datatype OrderSnapshot = OrderSnapshot(
    id: Guid,
    configuration: ConsoleConfig,
    totalPrice: Cents,
    status: OrderStatus,
    createdAt: Instant,
    completedAt: Option<Instant>,
    customerEmail: string)

  /** The five properties that nothing but the constructor sets. */
  predicate SameIdentity(a: OrderSnapshot, b: OrderSnapshot) {
    && a.id == b.id
    && a.configuration == b.configuration
    && a.totalPrice == b.totalPrice
    && a.createdAt == b.createdAt
    && a.customerEmail == b.customerEmail
  }

  /** The lifecycle invariant: a completion time is recorded exactly for completed orders. */
  predicate StampedIffCompleted(o: OrderSnapshot) {
    o.completedAt.Some? <==> o.status == Completed
  }

  // ---------------------------------------------------------------- email

  /** .NET's `MailAddress` parser, which is not modelled: `None` when its
      constructor throws, otherwise the normalised `Address` it yields. */
  type AddressParser = string -> Option<string>

  /** `IsValidEmail`: the parser accepts the input and gives it back unchanged. */
  predicate IsValidEmail(parseAddress: AddressParser, email: string)
    ensures IsValidEmail(parseAddress, email) <==> parseAddress(email) == Some(email)
  {
    match parseAddress(email)
    case None => false
    case Some(address) => address == email
  }

  // ---------------------------------------------------------------- price

  const ColorPremium: Cents := 2999
  const ControllerPrice: Cents := 3999
  const HdmiPrice: Cents := 4999

  /** The base price of each known console type. */
  function BasePrice(t: ConsoleType): (r: Option<Cents>)
    ensures r.Some? <==> IsKnownConsoleType(t)
    ensures r.Some? ==> 19999 <= r.value <= 34999
  {
    if t == NES then Some(19999)
    else if t == SNES then Some(24999)
    else if t == Genesis then Some(22999)
    else if t == N64 then Some(29999)
    else if t == PlayStation then Some(34999)
    else None
  }

  /** `CalculateTotalPrice`: base price, colour premium, one charge per
      controller and the HDMI charge; an unknown console type throws. */
  function CalculateTotalPrice(c: ConsoleConfig): (r: Result<Cents, Error>)
    ensures r.Failure? <==> !IsKnownConsoleType(c.consoleType)
    ensures r.Failure? ==> r.error == UnknownConsoleType
    ensures r.Success? && c.Valid() ==> 23998 <= r.value <= 58993
  {
    match BasePrice(c.consoleType)
    case None => Failure(UnknownConsoleType)
    case Some(base) =>
      var colorCost := if c.customColor then ColorPremium else 0;
      var controllersCost := c.numberOfControllers * ControllerPrice;
      var hdmiCost := if c.hdmiSupport then HdmiPrice else 0;
      Success(base + colorCost + controllersCost + hdmiCost)
  }

  /** NES with two controllers and no extras costs 279.97. */
  lemma PriceExample()
    ensures CalculateTotalPrice(ConsoleConfig(NES, 2, false, false, None)) == Success(27997)
  {
  }

  /** Each option adds its own fixed amount, whatever else is chosen: one
      more controller adds 39.99, HDMI 49.99 and a custom colour 29.99. */
  lemma PriceIsAdditive(c: ConsoleConfig)
    requires IsKnownConsoleType(c.consoleType)
    ensures CalculateTotalPrice(c.(numberOfControllers := c.numberOfControllers + 1)).value
         == CalculateTotalPrice(c).value + ControllerPrice
    ensures CalculateTotalPrice(c.(hdmiSupport := true)).value
         == CalculateTotalPrice(c.(hdmiSupport := false)).value + HdmiPrice
    ensures CalculateTotalPrice(c.(customColor := true)).value
         == CalculateTotalPrice(c.(customColor := false)).value + ColorPremium
  {
  }

  // ---------------------------------------------------------------- creation

  /** The constructor `Order(configuration, customerEmail)`, with the fresh
      id and the current time passed in. The checks run in order: a null
      configuration, a blank email, the email format, and last the console
      type (inside the price calculation). Any failure produces no order. */
  function NewOrder(
    configuration: Option<ConsoleConfig>,
    customerEmail: string,
    parseAddress: AddressParser,
    id: Guid,
    now: Instant): (r: Result<OrderSnapshot, Error>)
    ensures configuration.None? ==> r == Failure(ConfigurationRequired)
    ensures configuration.Some? && IsBlank(customerEmail) ==> r == Failure(EmailRequired)
    ensures configuration.Some? && !IsBlank(customerEmail) && !IsValidEmail(parseAddress, customerEmail) ==>
      r == Failure(InvalidEmailFormat)
    ensures configuration.Some? && !IsBlank(customerEmail) && IsValidEmail(parseAddress, customerEmail) ==>
      (r.Success? <==> IsKnownConsoleType(configuration.value.consoleType))
      && (r.Failure? ==> r.error == UnknownConsoleType)
    ensures r.Success? ==>
      && r.value.id == id
      && r.value.configuration == configuration.value
      && r.value.customerEmail == customerEmail
      && r.value.status == Pending
      && r.value.createdAt == now
      && r.value.completedAt == None
      && CalculateTotalPrice(configuration.value) == Success(r.value.totalPrice)
      && StampedIffCompleted(r.value)
  {
    if configuration.None? then Failure(ConfigurationRequired)
    else if IsBlank(customerEmail) then Failure(EmailRequired)
    else if !IsValidEmail(parseAddress, customerEmail) then Failure(InvalidEmailFormat)
    else
      match CalculateTotalPrice(configuration.value)
      case Failure(e) => Failure(e)
      case Success(price) =>
        Success(OrderSnapshot(id, configuration.value, price, Pending, now, None, customerEmail))
  }

  /** An order built from a configuration that its own constructor accepted
      is priced between 239.98 and 589.93. */
  lemma NewOrderPriceBounds(
    configuration: ConsoleConfig, customerEmail: string, parseAddress: AddressParser, id: Guid, now: Instant)
    requires configuration.Valid()
    requires NewOrder(Some(configuration), customerEmail, parseAddress, id, now).Success?
    ensures 23998 <= NewOrder(Some(configuration), customerEmail, parseAddress, id, now).value.totalPrice <= 58993
  {
  }

  // ---------------------------------------------------------------- transitions

  /** `MarkAsCompleted` on an order in state `s` at time `now`. */
  function CompleteTransition(s: OrderSnapshot, now: Instant): (r: Result<OrderSnapshot, Error>)
    ensures s.status == Completed ==> r == Failure(AlreadyCompleted)
    ensures s.status == Cancelled ==> r == Failure(CannotCompleteCancelled)
    ensures r.Success? <==> !s.status.IsTerminal()
    ensures r.Success? ==>
      SameIdentity(s, r.value) && r.value.status == Completed && r.value.completedAt == Some(now)
  {
    if s.status == Completed then Failure(AlreadyCompleted)
    else if s.status == Cancelled then Failure(CannotCompleteCancelled)
    else Success(s.(status := Completed, completedAt := Some(now)))
  }

  /** `Cancel` on an order in state `s`; the completion time is left as it was. */
  function CancelTransition(s: OrderSnapshot): (r: Result<OrderSnapshot, Error>)
    ensures s.status == Completed ==> r == Failure(CannotCancelCompleted)
    ensures s.status == Cancelled ==> r == Failure(AlreadyCancelled)
    ensures r.Success? <==> !s.status.IsTerminal()
    ensures r.Success? ==>
      SameIdentity(s, r.value) && r.value.status == Cancelled && r.value.completedAt == s.completedAt
  {
    if s.status == Completed then Failure(CannotCancelCompleted)
    else if s.status == Cancelled then Failure(AlreadyCancelled)
    else Success(s.(status := Cancelled))
  }

  /** A call of one of the two transitions. */
  datatype Command = MarkAsCompleted(at: Instant) | Cancel

  /** The state after a call: a call that throws leaves the order as it was. */
  function Step(s: OrderSnapshot, cmd: Command): OrderSnapshot {
    var r := match cmd
      case MarkAsCompleted(at) => CompleteTransition(s, at)
      case Cancel => CancelTransition(s);
    if r.Success? then r.value else s
  }

  /** The state after a sequence of calls. */
  function Run(s: OrderSnapshot, cmds: seq<Command>): OrderSnapshot
    decreases |cmds|
  {
    if cmds == [] then s else Run(Step(s, cmds[0]), cmds[1..])
  }

  /** Along any sequence of calls the lifecycle invariant is kept, the five
      constructor-set properties never change, and `Processing` is never entered. */
  lemma {:induction false} RunPreservesInvariants(s: OrderSnapshot, cmds: seq<Command>)
    requires StampedIffCompleted(s) && s.status != Processing
    ensures StampedIffCompleted(Run(s, cmds)) && SameIdentity(s, Run(s, cmds))
    ensures Run(s, cmds).status != Processing
    decreases |cmds|
  {
    if cmds != [] {
      RunPreservesInvariants(Step(s, cmds[0]), cmds[1..]);
    }
  }

  /** Completed and Cancelled are never left: every later call throws. */
  lemma {:induction false} TerminalIsFinal(s: OrderSnapshot, cmds: seq<Command>)
    requires s.status.IsTerminal()
    ensures Run(s, cmds) == s
    decreases |cmds|
  {
    if cmds != [] {
      assert Step(s, cmds[0]) == s;
      TerminalIsFinal(s, cmds[1..]);
    }
  }

  /** From Pending the first call decides the outcome for good: the two
      terminal states are mutually exclusive destinations. */
  lemma FirstCallDecides(s: OrderSnapshot, cmds: seq<Command>)
    requires s.status == Pending && cmds != []
    ensures Run(s, cmds).status == if cmds[0].MarkAsCompleted? then Completed else Cancelled
  {
    TerminalIsFinal(Step(s, cmds[0]), cmds[1..]);
  }

  /** If every completion happens no earlier than creation, the recorded
      completion time is never before the creation time. */
  lemma {:induction false} CompletionNotBeforeCreation(s: OrderSnapshot, cmds: seq<Command>)
    requires s.completedAt.Some? ==> s.completedAt.value >= s.createdAt
    requires forall k :: 0 <= k < |cmds| && cmds[k].MarkAsCompleted? ==> cmds[k].at >= s.createdAt
    ensures Run(s, cmds).completedAt.Some? ==> Run(s, cmds).completedAt.value >= Run(s, cmds).createdAt
    decreases |cmds|
  {
    if cmds != [] {
      var t := Step(s, cmds[0]);
      assert forall k :: 0 <= k < |cmds[1..]| ==> cmds[1..][k] == cmds[k + 1];
      CompletionNotBeforeCreation(t, cmds[1..]);
    }
  }

  /** Every order reachable from the constructor by calls of the two
      transitions has a completion time exactly when it is Completed, is
      never Processing, and keeps the properties it was created with. */
  lemma ReachableOrders(
    configuration: Option<ConsoleConfig>, customerEmail: string, parseAddress: AddressParser,
    id: Guid, now: Instant, cmds: seq<Command>)
    requires NewOrder(configuration, customerEmail, parseAddress, id, now).Success?
    ensures var o := NewOrder(configuration, customerEmail, parseAddress, id, now).value;
      && StampedIffCompleted(Run(o, cmds))
      && Run(o, cmds).status != Processing
      && SameIdentity(o, Run(o, cmds))
  {
    RunPreservesInvariants(NewOrder(configuration, customerEmail, parseAddress, id, now).value, cmds);
  }

  // ---------------------------------------------------------------- entity

  /** The entity. The five constructor-set properties are constants; the
      two transitions update `status` and `completedAt` in place. */
  class Order {
    const id: Guid
    const configuration: ConsoleConfig
    const totalPrice: Cents
    const createdAt: Instant
    const customerEmail: string
    var status: OrderStatus
    var completedAt: Option<Instant>

    /** The entity's current state as a value. */
    function Snapshot(): OrderSnapshot
      reads this
    {
      OrderSnapshot(id, configuration, totalPrice, status, createdAt, completedAt, customerEmail)
    }

    /** The parameterless constructor the store uses to load a saved order. */
    constructor Materialise(s: OrderSnapshot)
      ensures Snapshot() == s
    {
      id := s.id;
      configuration := s.configuration;
      totalPrice := s.totalPrice;
      createdAt := s.createdAt;
      customerEmail := s.customerEmail;
      status := s.status;
      completedAt := s.completedAt;
    }

    /** `new Order(configuration, customerEmail)`, run step by step; it
      yields an entity exactly when `NewOrder` does, in the state it gives. */
    static method Create(
      configuration: Option<ConsoleConfig>,
      customerEmail: string,
      parseAddress: AddressParser,
      id: Guid,
      now: Instant) returns (r: Result<Order, Error>)
      ensures NewOrder(configuration, customerEmail, parseAddress, id, now).Failure? ==>
        r == Failure(NewOrder(configuration, customerEmail, parseAddress, id, now).error)
      ensures NewOrder(configuration, customerEmail, parseAddress, id, now).Success? ==>
        && r.Success? && fresh(r.value)
        && r.value.Snapshot() == NewOrder(configuration, customerEmail, parseAddress, id, now).value
    {
      if configuration.None? {
        return Failure(ConfigurationRequired);
      }
      if IsBlank(customerEmail) {
        return Failure(EmailRequired);
      }
      if !IsValidEmail(parseAddress, customerEmail) {
        return Failure(InvalidEmailFormat);
      }
      var price := CalculateTotalPrice(configuration.value);
      if price.Failure? {
        return Failure(price.error);
      }
      var order := new Order.Materialise(
        OrderSnapshot(id, configuration.value, price.value, Pending, now, None, customerEmail));
      return Success(order);
    }

    /** `MarkAsCompleted`, with the current time passed in. */
    method MarkAsCompleted(now: Instant) returns (r: Outcome<Error>)
      modifies this
      ensures CompleteTransition(old(Snapshot()), now).Failure? ==>
        r == Fail(CompleteTransition(old(Snapshot()), now).error) && Snapshot() == old(Snapshot())
      ensures CompleteTransition(old(Snapshot()), now).Success? ==>
        r == Pass && Snapshot() == CompleteTransition(old(Snapshot()), now).value
    {
      if status == Completed {
        return Fail(AlreadyCompleted);
      }
      if status == Cancelled {
        return Fail(CannotCompleteCancelled);
      }
      status := Completed;
      completedAt := Some(now);
      return Pass;
    }

    /** `Cancel`. */
    method Cancel() returns (r: Outcome<Error>)
      modifies this
      ensures CancelTransition(old(Snapshot())).Failure? ==>
        r == Fail(CancelTransition(old(Snapshot())).error) && Snapshot() == old(Snapshot())
      ensures CancelTransition(old(Snapshot())).Success? ==>
        r == Pass && Snapshot() == CancelTransition(old(Snapshot())).value
    {
      if status == Completed {
        return Fail(CannotCancelCompleted);
      }
      if status == Cancelled {
        return Fail(AlreadyCancelled);
      }
      status := Cancelled;
      return Pass;
    }
  }
}
