/**
 * Orders: the no-fly and capacity validity rule, settlement of an order through a payment
 * strategy (OPEN to CLOSED), order assembly by FlightOrderBuilder under the Director, and
 * the customer that keeps the orders it creates.
 */
module Orders {
  import opened Wrappers
  import opened Flights
  import opened Payment
  import Planes

  /** Names that may neither book nor fly. */
  const NoFlyList: seq<string> := ["Peter", "Johannes"]

  /** `processOrder` throws "Payment failed."; the composed builder rejects an order that breaks the rules. */
  datatype OrderError = PaymentFailed | InvalidOrder

  // ---------------------------------------------------------------------------------------
  // Passengers from names

  /** `buildPassengers`' `map(Passenger::new)`: one passenger per name, in order. */
  function ToPassengers(names: seq<string>): (r: seq<Passenger>)
    ensures |r| == |names|
    ensures forall i :: 0 <= i < |names| ==> r[i].name == names[i]
  {
    seq(|names|, i requires 0 <= i < |names| => Passenger(names[i]))
  }

  /** `k` copies of `ps`, one after the other: what a flight listed `k` times receives. */
  function Repeat(ps: seq<Passenger>, k: nat): (r: seq<Passenger>)
  {
    if k == 0 then [] else Repeat(ps, k - 1) + ps
  }

  lemma {:induction false} RepeatLength(ps: seq<Passenger>, k: nat)
    ensures |Repeat(ps, k)| == k * |ps|
  {
    if k > 0 {
      RepeatLength(ps, k - 1);
    }
  }

  // ---------------------------------------------------------------------------------------
  // The validity rule

  /** No name of `names` is on the no-fly list (`noneMatch`). */
  predicate NoneOnNoFlyList(names: seq<string>)
  {
    names == [] || (names[0] !in NoFlyList && NoneOnNoFlyList(names[1..]))
  }

  /** A flight has a known capacity with at least `n` seats left; an unknown capacity fails. */
  predicate HasRoomFor(f: ScheduledFlight, n: int)
    reads f
  {
    match f.GetAvailableCapacity()
    case Ok(available) => available >= n
    case Err(_) => false
  }

  /** Every flight has room for `n` more (`allMatch`). */
  predicate AllHaveRoom(flights: seq<ScheduledFlight>, n: int)
    reads flights
  {
    flights == [] || (HasRoomFor(flights[0], n) && AllHaveRoom(flights[1..], n))
  }

  /** `isOrderValid`: customer and passengers off the no-fly list, and room on every flight. */
  predicate IsOrderValid(customer: Customer, passengerNames: seq<string>, flights: seq<ScheduledFlight>)
    reads customer, flights
  {
    customer.name !in NoFlyList && NoneOnNoFlyList(passengerNames) && AllHaveRoom(flights, |passengerNames|)
  }

  lemma {:induction false} NoneOnNoFlyListSpec(names: seq<string>)
    ensures NoneOnNoFlyList(names) <==> forall i :: 0 <= i < |names| ==> names[i] !in NoFlyList
  {
    if names != [] {
      NoneOnNoFlyListSpec(names[1..]);
      assert forall i :: 1 <= i < |names| ==> names[i] == names[1..][i - 1];
    }
  }

  lemma {:induction false} AllHaveRoomSpec(flights: seq<ScheduledFlight>, n: int)
    ensures AllHaveRoom(flights, n) <==>
              forall f :: f in flights ==> f.GetAvailableCapacity().Ok? && f.GetAvailableCapacity().value >= n
  {
    if flights != [] {
      AllHaveRoomSpec(flights[1..], n);
      assert forall f :: f in flights <==> f == flights[0] || f in flights[1..];
    }
  }

  /**
   * The rule spelled out: true exactly when the customer and every passenger are off the
   * no-fly list and every flight has a known capacity with at least one seat per passenger.
   */
  lemma IsOrderValidSpec(customer: Customer, passengerNames: seq<string>, flights: seq<ScheduledFlight>)
    ensures IsOrderValid(customer, passengerNames, flights) <==>
              && customer.name !in ["Peter", "Johannes"]
              && (forall i :: 0 <= i < |passengerNames| ==> passengerNames[i] !in ["Peter", "Johannes"])
              && (forall f :: f in flights ==>
                    f.GetCapacity().Ok? && f.GetCapacity().value - |f.passengers| >= |passengerNames|)
  {
    NoneOnNoFlyListSpec(passengerNames);
    AllHaveRoomSpec(flights, |passengerNames|);
  }

  /** A flight whose aircraft is not a plane makes every order over it invalid. */
  lemma UnknownCapacityInvalidates(customer: Customer, passengerNames: seq<string>,
                                   flights: seq<ScheduledFlight>, f: ScheduledFlight)
    requires f in flights && f.aircraft.NotAPlane?
    ensures !IsOrderValid(customer, passengerNames, flights)
  {
    AllHaveRoomSpec(flights, |passengerNames|);
  }

  /** One no-fly passenger is enough to make the order invalid. */
  lemma NoFlyPassengerInvalidates(customer: Customer, passengerNames: seq<string>,
                                  flights: seq<ScheduledFlight>, i: int)
    requires 0 <= i < |passengerNames| && passengerNames[i] in NoFlyList
    ensures !IsOrderValid(customer, passengerNames, flights)
  {
    NoneOnNoFlyListSpec(passengerNames);
  }

  // ---------------------------------------------------------------------------------------
  // The order and its settlement

  class FlightOrder {
    var flights: seq<ScheduledFlight>
    var customer: Customer?
    var price: real
    var passengers: seq<Passenger>
    var closed: bool

    /** A new order is open, with no customer, no passengers and a zero price. */
    constructor (flights: seq<ScheduledFlight>)
      ensures this.flights == flights && customer == null && price == 0.0 && passengers == [] && !closed
    {
      this.flights := flights;
      customer := null;
      price := 0.0;
      passengers := [];
      closed := false;
    }

    function IsClosed(): (b: bool)
      reads this
    {
      closed
    }

    function GetScheduledFlights(): (r: seq<ScheduledFlight>)
      reads this
    {
      flights
    }

    /**
     * `processOrder`: a closed order reports success and charges nothing; an open order is
     * charged its price and closes exactly when the strategy pays, else fails and stays open.
     * Nothing but the closed flag (and the strategy's own state) changes, and a closed
     * order never reopens.
     */
    method ProcessOrder(strategy: PaymentStrategy) returns (r: Result<bool, OrderError>)
      modifies this, strategy.Footprint()
      ensures old(closed) ==> r == Ok(true) && closed && unchanged(strategy.Footprint())
      ensures !old(closed) ==> (r.Ok? <==> old(strategy.Accepts(price)))
      ensures r.Ok? ==> r.value
      ensures r.Err? ==> r.error == PaymentFailed
      ensures closed <==> r.Ok?
      ensures strategy.CardPayment? ==> strategy.card.valid == old(strategy.card.valid)
      ensures !old(closed) && strategy.CardPayment? ==>
                strategy.card.amount == if r.Ok? then old(strategy.card.amount) - price else old(strategy.card.amount)
      ensures flights == old(flights) && customer == old(customer)
      ensures price == old(price) && passengers == old(passengers)
    {
      if IsClosed() {
        return Ok(true);
      }
      var paid := PayWith(strategy, price);
      if paid {
        closed := true;
        r := Ok(true);
      } else {
        r := Err(PaymentFailed);
      }
    }

    /** Pay with a card made from raw details: a fresh card, so the rule and its 100000 balance decide. */
    method ProcessOrderWithCreditCardDetail(number: string, expirationDate: int, cvv: string, now: int)
      returns (r: Result<bool, OrderError>)
      modifies this
      ensures r.Ok? <==> old(closed) || (CardDetailsValid(number, expirationDate, cvv, now) && price <= InitialBalance)
      ensures r.Ok? ==> r.value
      ensures r.Err? ==> r.error == PaymentFailed
      ensures closed <==> r.Ok?
      ensures flights == old(flights) && customer == old(customer)
      ensures price == old(price) && passengers == old(passengers)
    {
      var card := new CreditCard(number, expirationDate, cvv, now);
      r := ProcessOrder(CardPayment(card));
    }

    /** `processOrderWithCreditCard`: exactly `processOrder` with the given card. */
    method ProcessOrderWithCreditCard(card: CreditCard) returns (r: Result<bool, OrderError>)
      modifies this, card
      ensures r.Ok? <==> old(closed) || (old(card.valid) && old(card.amount) >= price)
      ensures r.Ok? ==> r.value
      ensures r.Err? ==> r.error == PaymentFailed
      ensures closed <==> r.Ok?
      ensures card.valid == old(card.valid)
      ensures card.amount == if !old(closed) && r.Ok? then old(card.amount) - price else old(card.amount)
      ensures flights == old(flights) && customer == old(customer)
      ensures price == old(price) && passengers == old(passengers)
    {
      r := ProcessOrder(CardPayment(card));
    }

    /** `processOrderWithPayPal`: exactly `processOrder` with a PayPal account for these credentials. */
    method ProcessOrderWithPayPal(email: string, password: string) returns (r: Result<bool, OrderError>)
      modifies this
      ensures r.Ok? <==> old(closed) || (password in DataBase && DataBase[password] == email)
      ensures r.Ok? ==> r.value
      ensures r.Err? ==> r.error == PaymentFailed
      ensures closed <==> r.Ok?
      ensures flights == old(flights) && customer == old(customer)
      ensures price == old(price) && passengers == old(passengers)
    {
      r := ProcessOrder(PaypalPayment(Paypal(email, password)));
    }
  }

  /**
   * Settling twice: once the first call succeeds the second succeeds too, charges nothing
   * and leaves the order closed, whatever strategy it is given.
   */
  method SettleTwice(order: FlightOrder, first: PaymentStrategy, second: PaymentStrategy)
    returns (r1: Result<bool, OrderError>, r2: Result<bool, OrderError>)
    modifies order, first.Footprint(), second.Footprint()
    ensures r1.Ok? ==> r2 == Ok(true) && order.closed
    ensures r1.Ok? && second.CardPayment? && second != first ==>
              second.card.amount == old(second.card.amount)
  {
    r1 := order.ProcessOrder(first);
    if r1.Err? {
      return r1, r1;
    }
    r2 := order.ProcessOrder(second);
  }

  // ---------------------------------------------------------------------------------------
  // Assembly

  /** The builder steps, recorded in the order they are taken. */
  datatype BuildStep = BuiltCustomer | BuiltPrice | BuiltPassengers | BuiltFlights

  /** How many times `f` is listed in `flights`. */
  function Occurrences(flights: seq<ScheduledFlight>, f: ScheduledFlight): (n: nat)
  {
    if flights == [] then 0
    else Occurrences(flights[..|flights| - 1], f) + (if flights[|flights| - 1] == f then 1 else 0)
  }

  /** The `forEach` of `buildFlights`: append `ps` to each listed flight, once per time it is listed. */
  method AppendToEach(flights: seq<ScheduledFlight>, ps: seq<Passenger>)
    modifies flights
    ensures forall f :: f in flights ==> f.passengers == old(f.passengers) + Repeat(ps, Occurrences(flights, f))
    ensures forall f :: f in flights ==> f.currentPrice == old(f.currentPrice)
  {
    var i := 0;
    while i < |flights|
      invariant 0 <= i <= |flights|
      invariant forall f :: f in flights ==> f.passengers == old(f.passengers) + Repeat(ps, Occurrences(flights[..i], f))
      invariant forall f :: f in flights ==> f.currentPrice == old(f.currentPrice)
    {
      var current := flights[i];
      assert flights[..i + 1][..i] == flights[..i];
      label Before:
      current.AddPassengers(ps);
      forall f | f in flights
        ensures f.passengers == old(f.passengers) + Repeat(ps, Occurrences(flights[..i + 1], f))
      {
        assert old@Before(f.passengers) == old(f.passengers) + Repeat(ps, Occurrences(flights[..i], f));
        if f == current {
          assert Occurrences(flights[..i + 1], f) == Occurrences(flights[..i], f) + 1;
          assert Repeat(ps, Occurrences(flights[..i], f) + 1) == Repeat(ps, Occurrences(flights[..i], f)) + ps;
        } else {
          assert Occurrences(flights[..i + 1], f) == Occurrences(flights[..i], f);
        }
      }
      i := i + 1;
    }
    assert flights[..i] == flights;
  }

  class FlightOrderBuilder {
    /** The one order every step works on and `GetResult` hands out. */
    const order: FlightOrder
    ghost var steps: seq<BuildStep>

    /** Starts from an empty open order with no flights. */
    constructor ()
      ensures fresh(order) && steps == []
      ensures order.flights == [] && order.customer == null && order.price == 0.0
      ensures order.passengers == [] && !order.closed
    {
      order := new FlightOrder([]);
      steps := [];
    }

    /**
     * `buildFlights`: record the flights on the order, then append the order's passengers to
     * each listed flight, once per time it is listed. Flights not listed are not touched.
     */
    method BuildFlights(flights: seq<ScheduledFlight>)
      modifies this, order, flights
      ensures order.flights == flights
      ensures order.customer == old(order.customer) && order.price == old(order.price)
      ensures order.passengers == old(order.passengers) && order.closed == old(order.closed)
      ensures forall f :: f in flights ==>
                f.passengers == old(f.passengers) + Repeat(order.passengers, Occurrences(flights, f))
      ensures forall f :: f in flights ==> f.currentPrice == old(f.currentPrice)
      ensures steps == old(steps) + [BuiltFlights]
    {
      order.flights := flights;
      AppendToEach(order.flights, order.passengers);
      steps := steps + [BuiltFlights];
    }

    method BuildCustomer(customer: Customer)
      modifies this, order
      ensures order.customer == customer
      ensures order.flights == old(order.flights) && order.price == old(order.price)
      ensures order.passengers == old(order.passengers) && order.closed == old(order.closed)
      ensures steps == old(steps) + [BuiltCustomer]
    {
      order.customer := customer;
      steps := steps + [BuiltCustomer];
    }

    method BuildPrice(price: real)
      modifies this, order
      ensures order.price == price
      ensures order.flights == old(order.flights) && order.customer == old(order.customer)
      ensures order.passengers == old(order.passengers) && order.closed == old(order.closed)
      ensures steps == old(steps) + [BuiltPrice]
    {
      order.price := price;
      steps := steps + [BuiltPrice];
    }

    /** `buildPassengers`: the order's passengers become one per name, in order. */
    method BuildPassengers(passengerNames: seq<string>)
      modifies this, order
      ensures order.passengers == ToPassengers(passengerNames)
      ensures |order.passengers| == |passengerNames|
      ensures order.flights == old(order.flights) && order.customer == old(order.customer)
      ensures order.price == old(order.price) && order.closed == old(order.closed)
      ensures steps == old(steps) + [BuiltPassengers]
    {
      order.passengers := ToPassengers(passengerNames);
      steps := steps + [BuiltPassengers];
    }

    function GetResult(): (r: FlightOrder)
    {
      order
    }
  }

  class Director {
    const builder: FlightOrderBuilder

    constructor (builder: FlightOrderBuilder)
      ensures this.builder == builder
    {
      this.builder := builder;
    }

    /**
     * `constructOrder`: customer, price, passengers, flights, each once and in that order.
     * Because the passengers are built first, every listed flight receives exactly this
     * order's new passengers. No no-fly or capacity check takes place.
     */
    method ConstructOrder(passengerNames: seq<string>, flights: seq<ScheduledFlight>, price: real, customer: Customer)
      modifies builder, builder.order, flights
      ensures builder.steps == old(builder.steps) + [BuiltCustomer, BuiltPrice, BuiltPassengers, BuiltFlights]
      ensures builder.order.customer == customer && builder.order.price == price
      ensures builder.order.passengers == ToPassengers(passengerNames) && builder.order.flights == flights
      ensures builder.order.closed == old(builder.order.closed)
      ensures forall f :: f in flights ==>
                f.passengers == old(f.passengers) + Repeat(ToPassengers(passengerNames), Occurrences(flights, f))
      ensures forall f :: f in flights ==>
                |f.passengers| == |old(f.passengers)| + Occurrences(flights, f) * |passengerNames|
      ensures forall f :: f in flights ==> f.currentPrice == old(f.currentPrice)
    {
      builder.BuildCustomer(customer);
      builder.BuildPrice(price);
      builder.BuildPassengers(passengerNames);
      builder.BuildFlights(flights);
      forall f | f in flights
        ensures |f.passengers| == |old(f.passengers)| + Occurrences(flights, f) * |passengerNames|
      {
        RepeatLength(ToPassengers(passengerNames), Occurrences(flights, f));
      }
    }
  }

  /**
   * Validate, then construct: a composition the repository does not itself perform. An
   * order that breaks the rule is refused before any flight is touched; a valid one is
   * built by the director, and every flight listed once keeps a non-negative number of
   * free seats.
   */
  method ValidateThenConstruct(director: Director, passengerNames: seq<string>,
                               flights: seq<ScheduledFlight>, price: real, customer: Customer)
    returns (r: Result<FlightOrder, OrderError>)
    modifies director.builder, director.builder.order, flights
    ensures r.Ok? <==> old(IsOrderValid(customer, passengerNames, flights))
    ensures r.Err? ==> r.error == InvalidOrder
    ensures r.Err? ==> forall f :: f in flights ==> f.passengers == old(f.passengers)
    ensures forall f :: f in flights ==> f.currentPrice == old(f.currentPrice)
    ensures r.Err? ==> director.builder.steps == old(director.builder.steps)
    ensures r.Err? ==> director.builder.order.flights == old(director.builder.order.flights)
                       && director.builder.order.customer == old(director.builder.order.customer)
                       && director.builder.order.price == old(director.builder.order.price)
                       && director.builder.order.passengers == old(director.builder.order.passengers)
                       && director.builder.order.closed == old(director.builder.order.closed)
    ensures r.Ok? ==> r.value == director.builder.order && r.value.passengers == ToPassengers(passengerNames)
    ensures r.Ok? ==> r.value.customer == customer && r.value.price == price && r.value.flights == flights
    ensures r.Ok? ==> r.value.closed == old(director.builder.order.closed)
    ensures r.Ok? ==> forall f :: f in flights ==>
              f.passengers == old(f.passengers) + Repeat(ToPassengers(passengerNames), Occurrences(flights, f))
    ensures r.Ok? ==> forall f :: f in flights && Occurrences(flights, f) == 1 ==>
              f.GetAvailableCapacity().Ok? && f.GetAvailableCapacity().value >= 0
  {
    if !IsOrderValid(customer, passengerNames, flights) {
      return Err(InvalidOrder);
    }
    AllHaveRoomSpec(flights, |passengerNames|);
    director.ConstructOrder(passengerNames, flights, price, customer);
    r := Ok(director.builder.GetResult());
  }

  /** An empty flight on a "HypaHype" drone, the four-seat aircraft the scenarios book. */
  method NewDroneFlight() returns (flight: ScheduledFlight)
    ensures fresh(flight) && flight.passengers == [] && flight.GetAvailableCapacity() == Ok(4)
  {
    var drone := Planes.NewPassengerDrone("HypaHype");
    flight := new ScheduledFlight(1, "MUC", "FRA", AsPlane(drone.value), 0);
  }

  /** A flight listed once receives the passengers exactly once. */
  lemma SingleListing(f: ScheduledFlight, ps: seq<Passenger>)
    ensures Occurrences([f], f) == 1 && Repeat(ps, 1) == ps
  {
    assert [f][..0] == [];
  }

  /** An order over a single flight is valid when nobody is on the no-fly list and the flight has room. */
  lemma ValidOnOneFlight(customer: Customer, passengerNames: seq<string>, f: ScheduledFlight)
    requires customer.name !in NoFlyList
    requires forall i :: 0 <= i < |passengerNames| ==> passengerNames[i] !in NoFlyList
    requires HasRoomFor(f, |passengerNames|)
    ensures IsOrderValid(customer, passengerNames, [f])
  {
    NoneOnNoFlyListSpec(passengerNames);
    assert [f][1..] == [];
  }

  /** The two passengers of the Alice scenario: neither is on the no-fly list. */
  lemma AnnAndBob()
    ensures ToPassengers(["Ann", "Bob"]) == [Passenger("Ann"), Passenger("Bob")]
    ensures forall i :: 0 <= i < |["Ann", "Bob"]| ==> ["Ann", "Bob"][i] !in NoFlyList
    ensures "Alice" !in NoFlyList
  {
  }

  /** Alice books two seats on the empty drone: accepted, two enrolled, two seats left. */
  method AliceBooksDrone() returns (r: Result<FlightOrder, OrderError>, flight: ScheduledFlight)
    ensures r.Ok? && r.value.passengers == [Passenger("Ann"), Passenger("Bob")]
    ensures |flight.passengers| == 2 && flight.GetAvailableCapacity() == Ok(2)
  {
    flight := NewDroneFlight();
    var alice := new Customer("Alice", "alice@example.com");
    var builder := new FlightOrderBuilder();
    var director := new Director(builder);
    var names := ["Ann", "Bob"];
    AnnAndBob();
    var ps := ToPassengers(names);
    SingleListing(flight, ps);
    ValidOnOneFlight(alice, names, flight);
    r := ValidateThenConstruct(director, names, [flight], 500.0, alice);
    assert flight in [flight];
    assert flight.passengers == ps;
  }

  /** Peter is on the no-fly list: his booking is refused and the flight stays empty. */
  method PeterIsRefused() returns (r: Result<FlightOrder, OrderError>, flight: ScheduledFlight)
    ensures r == Err(InvalidOrder)
    ensures flight.passengers == [] && flight.GetAvailableCapacity() == Ok(4)
  {
    flight := NewDroneFlight();
    var peter := new Customer("Peter", "peter@example.com");
    var builder := new FlightOrderBuilder();
    var director := new Director(builder);
    r := ValidateThenConstruct(director, ["Ann"], [flight], 500.0, peter);
  }

  /**
   * The rule tests each listing of a flight against the passenger count taken before
   * enrolment, so a flight listed twice passes both tests with three passengers and then
   * receives them once per listing, six in all: four seats, two short.
   */
  method RepeatedFlightOverbooks() returns (r: Result<FlightOrder, OrderError>, flight: ScheduledFlight)
    ensures r.Ok?
    ensures flight.GetAvailableCapacity() == Ok(-2)
  {
    flight := NewDroneFlight();
    var alice := new Customer("Alice", "alice@example.com");
    var builder := new FlightOrderBuilder();
    var director := new Director(builder);
    assert AllHaveRoom([flight, flight], 3);
    r := ValidateThenConstruct(director, ["Ann", "Bob", "Cy"], [flight, flight], 500.0, alice);
    assert Occurrences([flight, flight], flight) == 2 by {
      assert [flight][..0] == [];
      assert Occurrences([flight], flight) == 1;
      assert [flight, flight][..1] == [flight];
    }
    RepeatLength(ToPassengers(["Ann", "Bob", "Cy"]), 2);
  }

  // ---------------------------------------------------------------------------------------
  // The customer

  class Customer {
    var email: string
    var name: string
    var orders: seq<FlightOrder>

    /** A new customer has the given name and email and no orders. */
    constructor (name: string, email: string)
      ensures this.name == name && this.email == email && orders == []
    {
      this.name := name;
      this.email := email;
      orders := [];
    }

    /**
     * `createOrder`: build the order with validation, as the builder chain announces, and
     * append it. An order that breaks the no-fly or capacity rule is refused: nothing is
     * appended and no flight is touched. Earlier orders stay where they were.
     */
    method CreateOrder(passengerNames: seq<string>, flights: seq<ScheduledFlight>, price: real)
      returns (r: Result<FlightOrder, OrderError>)
      modifies this, flights
      ensures r.Ok? <==> old(IsOrderValid(this, passengerNames, flights))
      ensures name == old(name) && email == old(email)
      ensures r.Err? ==> r.error == InvalidOrder && orders == old(orders)
      ensures r.Err? ==> forall f :: f in flights ==> f.passengers == old(f.passengers)
      ensures forall f :: f in flights ==> f.currentPrice == old(f.currentPrice)
      ensures r.Ok? ==> fresh(r.value) && orders == old(orders) + [r.value]
      ensures r.Ok? ==> r.value.customer == this && r.value.price == price && r.value.flights == flights
      ensures r.Ok? ==> r.value.passengers == ToPassengers(passengerNames) && !r.value.closed
      ensures r.Ok? ==> forall f :: f in flights ==>
                f.passengers == old(f.passengers) + Repeat(ToPassengers(passengerNames), Occurrences(flights, f))
    {
      var builder := new FlightOrderBuilder();
      var director := new Director(builder);
      r := ValidateThenConstruct(director, passengerNames, flights, price, this);
      if r.Ok? {
        orders := orders + [r.value];
      }
    }

    function GetEmail(): (r: string)
      reads this
    {
      email
    }

    method SetEmail(email: string)
      modifies this
      ensures GetEmail() == email && name == old(name) && orders == old(orders)
    {
      this.email := email;
    }

    function GetName(): (r: string)
      reads this
    {
      name
    }

    method SetName(name: string)
      modifies this
      ensures GetName() == name && email == old(email) && orders == old(orders)
    {
      this.name := name;
    }

    function GetOrders(): (r: seq<FlightOrder>)
      reads this
    {
      orders
    }

    method SetOrders(orders: seq<FlightOrder>)
      modifies this
      ensures GetOrders() == orders && name == old(name) && email == old(email)
    {
      this.orders := orders;
    }
  }
}
