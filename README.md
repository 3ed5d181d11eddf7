# Flight reservation: bookings and settlement

A Dafny model of the booking and settlement core of a small flight-reservation system
written in Java. It covers these parts:

- how an aircraft is built and what capacities it reports;
- how a scheduled flight tracks its enrolled passengers and its free seats;
- the validity rule for an order: the no-fly list and seat capacity;
- how a builder and a director assemble an order and enrol its passengers on its flights;
- how an order is settled through a credit-card or PayPal payment strategy (OPEN to CLOSED);
- how a customer keeps the orders it creates.

Modules, one per component:

- `Wrappers`: `Result`, standing for the exceptions the source throws.
- `Planes` (`planes.dfy`): the `Plane` value, the `PassengerDrone` constructor and `PlaneFactory.createPlane`.
- `Flights` (`flights.dfy`): `Passenger`, the aircraft of a flight, and the `ScheduledFlight` class.
- `Payment` (`payment.dfy`): the `CreditCard` class, the `Paypal` value with its registry, and the
  `PaymentStrategy` interface as a tagged variant.
- `Orders` (`orders.dfy`): the no-fly list and `isOrderValid`, the `FlightOrder` class and its
  settlement, `FlightOrderBuilder`, `Director` and `Customer`. `Customer` sits in this module
  because it and `FlightOrder` refer to each other.

Classes whose fields the source updates in place are Dafny classes, with `modifies` clauses
on their methods: `ScheduledFlight`, `CreditCard`, `FlightOrder`, `FlightOrderBuilder` and
`Customer`. `Director` is a class too: its one field is set once, but it drives a mutable builder. Values are datatypes: `Plane`, `Passenger`, `Paypal` and `PaymentStrategy`.

Ways the model departs from the code, and what it adds:

- The builder and the director do not validate. They never call `isOrderValid`, a private
  method of `FlightOrder` that nothing in the code calls. `Director.ConstructOrder` therefore
  builds and enrols without any check, as the code does.
- Validate-then-build is an added composition. `ValidateThenConstruct` evaluates
  `IsOrderValid` and only then runs the director; an invalid order touches no flight.
- `Customer.createOrder` validates. Its builder chain does not exist in the code, and the
  comment on it says validation happens while the order is built. `CreateOrder` therefore
  goes through `ValidateThenConstruct`: it returns the order, or `InvalidOrder` with nothing
  appended and no flight changed. The missing chain would have to fail in that case, since
  `createOrder` returns a `FlightOrder`.
- Repeated flights can overbook. Even with validation, a flight listed twice in one order
  is tested at each listing, both times against the count taken before enrolment, and then
  receives the passengers once per listing (`RepeatedFlightOverbooks`).
- Capacity is not kept as an invariant. The intended design never lets enrolment exceed
  capacity. `addPassengers` has no check, so the free-seat count can go negative
  (`OverbookingIsPossible`).
- Missing APIs are modelled by what they evidently intend:
  - `new FlightOrder()` becomes an empty open order with no flights;
  - `setFlights` becomes an assignment to the order's flight list;
  - the fluent builder chain in `Customer.createOrder` becomes validation followed by the
    director's four steps on a new `FlightOrderBuilder`.

## Model

| member | source | states |
|---|---|---|
| `Planes.NewPassengerDrone` | src/main/java/flight/reservation/plane/PassengerDrone.java:6-21 | succeeds exactly for model "HypaHype", then keeps that model and reports 4 passenger seats and 0 crew; any other model is an UnrecognizedModel error |
| `Planes.CreatePlane` | src/main/java/flight/reservation/plane/PlaneFactory.java:4-15 | "Helicopter", "PassengerDrone" and "PassengerPlane" go to their own constructors with the given model; any other type name is an UnrecognizedType error |
| `Planes.FactoryDroneIsValid` | src/main/java/flight/reservation/plane/PlaneFactory.java:8-9 | a drone from the factory exists exactly for "HypaHype" and is then a 4-seat, 0-crew drone |
| `Flights.RemoveAllSpec` | src/main/java/flight/reservation/flight/ScheduledFlight.java:48-50 | `removeAll` keeps exactly the passengers not in the removal list, each as often as before, as a subsequence in the original order |
| `Flights.ScheduledFlight.constructor` | src/main/java/flight/reservation/flight/ScheduledFlight.java:18-24 | a new flight has no passengers and the default price 100 |
| `Flights.ScheduledFlight.WithPrice` | src/main/java/flight/reservation/flight/ScheduledFlight.java:26-31 | a new flight has no passengers and the given price |
| `Flights.ScheduledFlight.GetCrewMemberCapacity` | src/main/java/flight/reservation/flight/ScheduledFlight.java:35-41 | fails exactly when the aircraft is not a plane, else is the plane's crew capacity |
| `Flights.ScheduledFlight.GetCapacity` | src/main/java/flight/reservation/flight/ScheduledFlight.java:53-59 | fails exactly when the aircraft is not a plane, else is the plane's passenger capacity |
| `Flights.ScheduledFlight.GetAvailableCapacity` | src/main/java/flight/reservation/flight/ScheduledFlight.java:62-64 | propagates the unknown-capacity failure; otherwise free seats plus enrolled passengers equals capacity |
| `Flights.ScheduledFlight.AddPassengers` | src/main/java/flight/reservation/flight/ScheduledFlight.java:44-46 | the list becomes the old list followed by the new passengers, in order; free seats drop by exactly their number |
| `Flights.ScheduledFlight.RemovePassengers` | src/main/java/flight/reservation/flight/ScheduledFlight.java:48-50 | every passenger equal to one in the list goes, the rest stay in their order; the price is untouched |
| `Flights.ScheduledFlight.SetCurrentPrice` | src/main/java/flight/reservation/flight/ScheduledFlight.java:74-79 | the price read back is the price set; passengers are untouched |
| `Flights.OverbookingIsPossible` | src/main/java/flight/reservation/flight/ScheduledFlight.java:44-64 | with no capacity check, five passengers on a four-seat drone leave -1 free seats |
| `Payment.CreditCard.constructor` | src/main/java/flight/reservation/payment/CreditCard.java:16-22 | a new card has balance 100000 and is valid iff the number is non-empty, the expiry is after now and the cvv is not "000" |
| `Payment.CreditCard.SetAmount` | src/main/java/flight/reservation/payment/CreditCard.java:24-30 | the balance read back is the balance set; validity is untouched |
| `Payment.CreditCard.SetValid` | src/main/java/flight/reservation/payment/CreditCard.java:47-50 | validity is recomputed from the card details against the given clock reading; the balance is untouched |
| `Payment.CreditCard.Pay` | src/main/java/flight/reservation/payment/CreditCard.java:37-46 | succeeds iff the card is valid and the balance covers the amount; on success the balance drops by exactly the amount, otherwise it is unchanged; validity never changes; a non-negative balance stays non-negative |
| `Payment.Paypal.Pay` | src/main/java/flight/reservation/payment/Paypal.java:10-28 | accepted iff the credentials are one of the two seeded pairs (amanda1985/amanda@ya.com, qwerty/john@amazon.eu) |
| `Payment.PaypalIgnoresAmount` | src/main/java/flight/reservation/payment/Paypal.java:20-28 | the answer does not depend on the amount |
| `Payment.PayWith` | src/main/java/flight/reservation/order/FlightOrder.java:58 | the strategy's `pay` answers what the strategy accepts in the current state; a card is debited exactly on success and keeps its validity |
| `Payment.CardScenario` | src/main/java/flight/reservation/payment/CreditCard.java:37-45 | paying 500 from a new valid card leaves 99500; then 150000 is declined and the balance stays 99500 |
| `Payment.PaypalScenario` | src/main/java/flight/reservation/payment/Paypal.java:20-28 | john@amazon.eu with "qwerty" is accepted, with "wrong" declined |
| `Orders.ToPassengers` | src/main/java/flight/reservation/order/FlightOrderBuilder.java:35-41 | one passenger per name, same length, same order |
| `Orders.IsOrderValidSpec` | src/main/java/flight/reservation/order/FlightOrder.java:32-45 | the order is valid iff the customer and every passenger are off ["Peter","Johannes"] and every flight has a known capacity with at least one free seat per passenger |
| `Orders.UnknownCapacityInvalidates` | src/main/java/flight/reservation/order/FlightOrder.java:36-43 | a listed flight whose aircraft is not a plane makes the order invalid |
| `Orders.NoFlyPassengerInvalidates` | src/main/java/flight/reservation/order/FlightOrder.java:35 | one passenger on the no-fly list makes the order invalid |
| `Orders.FlightOrder.constructor` | src/main/java/flight/reservation/order/FlightOrder.java:18-20 | a new order holds the given flights and is open, with no customer, passengers or price |
| `Orders.FlightOrder.ProcessOrder` | src/main/java/flight/reservation/order/FlightOrder.java:52-64 | a closed order returns success and charges nothing; an open order succeeds and closes iff the strategy pays its price, else fails with PaymentFailed and stays open; price, passengers, flights and customer never change |
| `Orders.FlightOrder.ProcessOrderWithCreditCardDetail` | src/main/java/flight/reservation/order/FlightOrder.java:47-50 | the outcome of `processOrder` with a new card: success iff already closed, or the details are valid and the price is at most 100000 |
| `Orders.FlightOrder.ProcessOrderWithCreditCard` | src/main/java/flight/reservation/order/FlightOrder.java:65-80 | the outcome of `processOrder` with the given card, which is debited the price only when an open order is paid |
| `Orders.FlightOrder.ProcessOrderWithPayPal` | src/main/java/flight/reservation/order/FlightOrder.java:86-102 | the outcome of `processOrder` with a PayPal account: success iff already closed or the registry maps the password to that email |
| `Orders.SettleTwice` | src/main/java/flight/reservation/order/FlightOrder.java:52-64 | after one successful settlement a second one succeeds, leaves the order closed and charges a different card nothing |
| `Orders.AppendToEach` | src/main/java/flight/reservation/order/FlightOrderBuilder.java:21 | each listed flight receives the passengers once per time it is listed, in order; its price is untouched |
| `Orders.FlightOrderBuilder.constructor` | src/main/java/flight/reservation/order/FlightOrderBuilder.java:12-16 | the builder starts on a new, empty, open order |
| `Orders.FlightOrderBuilder.BuildFlights` | src/main/java/flight/reservation/order/FlightOrderBuilder.java:18-22 | the order records the flights and each listed flight receives the order's current passengers; no other order field changes |
| `Orders.FlightOrderBuilder.BuildCustomer` | src/main/java/flight/reservation/order/FlightOrderBuilder.java:24-27 | only the order's customer changes |
| `Orders.FlightOrderBuilder.BuildPrice` | src/main/java/flight/reservation/order/FlightOrderBuilder.java:29-32 | only the order's price changes |
| `Orders.FlightOrderBuilder.BuildPassengers` | src/main/java/flight/reservation/order/FlightOrderBuilder.java:34-41 | only the order's passengers change, to one passenger per name in order |
| `Orders.Director.constructor` | src/main/java/flight/reservation/order/Director.java:11-13 | the director drives the given builder |
| `Orders.Director.ConstructOrder` | src/main/java/flight/reservation/order/Director.java:15-20 | the steps run once each in the order customer, price, passengers, flights; every listed flight receives exactly the new passengers and grows by their number per listing, and keeps its price; no validation |
| `Orders.ValidateThenConstruct` | src/main/java/flight/reservation/order/Director.java:15-20 | composition of `isOrderValid` and the director: succeeds iff the order is valid; an invalid order touches no flight, builder or order; a valid one returns the builder's order with the given customer, price, flights and new passengers and its open state kept, enrols the passengers on every listed flight; every listed flight keeps its price, and one listed once keeps non-negative free seats |
| `Orders.NewDroneFlight` | src/main/java/flight/reservation/plane/PassengerDrone.java:16-18 | a flight on a "HypaHype" drone starts with four free seats |
| `Orders.AliceBooksDrone` | src/main/java/flight/reservation/order/FlightOrder.java:32-45 | two passengers on the empty four-seat drone are accepted, leaving two enrolled and two free |
| `Orders.PeterIsRefused` | src/main/java/flight/reservation/order/FlightOrder.java:34 | a no-fly customer is refused and the flight stays empty |
| `Orders.RepeatedFlightOverbooks` | src/main/java/flight/reservation/order/FlightOrder.java:36-44 | a flight listed twice passes the rule with three passengers, then holds six of four seats |
| `Orders.Customer.constructor` | src/main/java/flight/reservation/Customer.java:17-21 | a new customer has the given name and email and no orders |
| `Orders.Customer.CreateOrder` | src/main/java/flight/reservation/Customer.java:23-32 | succeeds iff the order passes the no-fly and capacity rule; on success the order list grows by exactly the returned new order at its end, earlier orders stay in place, and the order belongs to this customer with the given price, passengers and flights and is open; on failure it is InvalidOrder, the list is unchanged and no flight is touched; on either path every listed flight keeps its price |
| `Orders.Customer.SetEmail` | src/main/java/flight/reservation/Customer.java:51-57 | the email read back is the email set |
| `Orders.Customer.SetName` | src/main/java/flight/reservation/Customer.java:59-65 | the name read back is the name set |
| `Orders.Customer.SetOrders` | src/main/java/flight/reservation/Customer.java:67-74 | the order list is replaced wholesale by the given one |

## Left out

- Console output (`System.out.println`) and `printStackTrace`: output with no effect on results.
- Commented-out code in `FlightOrder` and `Customer`: it is not behaviour.
- The system clock: card validity takes the current time as a `now` argument, in milliseconds like the expiry date.
- Floating point: prices and balances are `real`, so IEEE rounding is not modelled.
- Concurrency: the code has no threads or locks. Two bookings that race on the same flight are not modelled.
- `setPaymentStrategy` and the `paymentStrategy` field: `processOrder` never reads the field.
- `cardIsPresentAndValid`: a private helper that is never called.
- `getNoFlyList`: the list is the constant `NoFlyList`.
- Simple field getters: `getScheduledFlights`, `getPassengers`, `getCurrentPrice`, `getDepartureTime`, `getAmount`,
  `isValid`, `getModel`, the customer getters and `getResult`. Each is a field, or a function with no contract of its own. `getResult`
  returns the builder's `const order`, so it is always the object the steps changed.
- `Order`, `Flight`, `Passenger`, `Airport`, `IPlane`, `Helicopter` and `PassengerPlane` are not part of this model:
  - the order fields are plain fields of `FlightOrder`;
  - a passenger is a name, and two passengers are equal when their names are;
  - airports are names;
  - a plane carries its own capacities;
  - the Helicopter and PassengerPlane constructors are parameters of `CreatePlane`.
- `Builder`: an interface with no behaviour, folded into `FlightOrderBuilder`.
- Orders.Customer.SetOrders: lists are values (`seq`) in the model, so sharing a list object with a caller is not modelled.
  In the Java, `setOrders` stores the caller's own list, so a later `createOrder` appends to that list too.
  `getOrders`, `ScheduledFlight.getPassengers` and `FlightOrder.getScheduledFlights` hand out the live internal lists,
  and the `FlightOrder` constructor keeps the caller's list. None of this aliasing exists in the model.
- Null references: arguments (customers, flights, cards, names) are never null in the model; an order's customer is
  null until `BuildCustomer` sets it.
