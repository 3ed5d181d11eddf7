/**
 * Scheduled flights: the aircraft capacity lookups, which fail for an aircraft that is
 * not an `IPlane`, and the passenger list that orders append to and remove from.
 */
module Flights {
  import opened Wrappers
  import opened Planes

  /** A passenger is a name and nothing more; two passengers are equal when their names are. */
  datatype Passenger = Passenger(name: string)

  /** The flight's aircraft is an arbitrary object; only an `IPlane` reports capacities. */
  datatype Aircraft = AsPlane(plane: Plane) | NotAPlane(description: string)

  /** The NoSuchFieldException the two capacity getters throw. */
  datatype FlightError = CapacityUnknown | CrewCapacityUnknown

  /** Airports are catalog data; a flight only records which ones it connects. */
  type Airport = string

  /** The price a flight starts with when none is given. */
  const DefaultPrice: real := 100.0

  /** `passengers.removeAll(ps)`: drop every element equal to some member of `ps`, keep the rest in order. */
  function RemoveAll(s: seq<Passenger>, ps: seq<Passenger>): (r: seq<Passenger>)
  {
    if s == [] then []
    else if s[0] in ps then RemoveAll(s[1..], ps)
    else [s[0]] + RemoveAll(s[1..], ps)
  }

  /** `sub` is `s` with some elements left out and the others in their original order. */
  predicate IsSubsequence(sub: seq<Passenger>, s: seq<Passenger>)
  {
    if sub == [] then true
    else if s == [] then false
    else (sub[0] == s[0] && IsSubsequence(sub[1..], s[1..])) || IsSubsequence(sub, s[1..])
  }

  /** Exactly the passengers that are not in `ps` survive, each as often as before, in order. */
  lemma {:induction false} RemoveAllSpec(s: seq<Passenger>, ps: seq<Passenger>)
    ensures forall x :: x in RemoveAll(s, ps) <==> x in s && x !in ps
    ensures forall x :: multiset(RemoveAll(s, ps))[x] == if x in ps then 0 else multiset(s)[x]
    ensures IsSubsequence(RemoveAll(s, ps), s)
  {
    if s != [] {
      RemoveAllSpec(s[1..], ps);
      assert s == [s[0]] + s[1..];
      assert multiset(s) == multiset{s[0]} + multiset(s[1..]);
      if s[0] !in ps {
        var r := RemoveAll(s, ps);
        assert r[0] == s[0] && r[1..] == RemoveAll(s[1..], ps);
      }
    }
  }

  class ScheduledFlight {
    const number: int
    const departure: Airport
    const arrival: Airport
    const aircraft: Aircraft
    const departureTime: int
    var passengers: seq<Passenger>
    var currentPrice: real

    /** A new flight has no passengers and the default price. */
    constructor (number: int, departure: Airport, arrival: Airport, aircraft: Aircraft, departureTime: int)
      ensures this.number == number && this.departure == departure && this.arrival == arrival
      ensures this.aircraft == aircraft && this.departureTime == departureTime
      ensures passengers == [] && currentPrice == DefaultPrice
    {
      this.number := number;
      this.departure := departure;
      this.arrival := arrival;
      this.aircraft := aircraft;
      this.departureTime := departureTime;
      passengers := [];
      currentPrice := DefaultPrice;
    }

    /** The overload that also fixes the starting price. */
    constructor WithPrice(number: int, departure: Airport, arrival: Airport, aircraft: Aircraft,
                          departureTime: int, currentPrice: real)
      ensures this.number == number && this.departure == departure && this.arrival == arrival
      ensures this.aircraft == aircraft && this.departureTime == departureTime
      ensures passengers == [] && this.currentPrice == currentPrice
    {
      this.number := number;
      this.departure := departure;
      this.arrival := arrival;
      this.aircraft := aircraft;
      this.departureTime := departureTime;
      passengers := [];
      this.currentPrice := currentPrice;
    }

    /** `getCrewMemberCapacity`: the plane's crew capacity, or a failure for a non-plane. */
    function GetCrewMemberCapacity(): (r: Result<int, FlightError>)
      ensures r.Err? <==> aircraft.NotAPlane?
      ensures r.Err? ==> r.error == CrewCapacityUnknown
      ensures r.Ok? ==> r.value == aircraft.plane.crewCapacity
    {
      match aircraft
      case AsPlane(p) => Ok(p.crewCapacity)
      case NotAPlane(_) => Err(CrewCapacityUnknown)
    }

    /** `getCapacity`: the plane's passenger capacity, or a failure for a non-plane. */
    function GetCapacity(): (r: Result<int, FlightError>)
      ensures r.Err? <==> aircraft.NotAPlane?
      ensures r.Err? ==> r.error == CapacityUnknown
      ensures r.Ok? ==> r.value == aircraft.plane.passengerCapacity
    {
      match aircraft
      case AsPlane(p) => Ok(p.passengerCapacity)
      case NotAPlane(_) => Err(CapacityUnknown)
    }

    /** `getAvailableCapacity`: seats left, which is negative once the flight is overbooked. */
    function GetAvailableCapacity(): (r: Result<int, FlightError>)
      reads this
      ensures r.Err? <==> GetCapacity().Err?
      ensures r.Err? ==> r.error == CapacityUnknown
      ensures r.Ok? ==> r.value + |passengers| == GetCapacity().value
    {
      match GetCapacity()
      case Ok(c) => Ok(c - |passengers|)
      case Err(e) => Err(e)
    }

    function GetPassengers(): (r: seq<Passenger>)
      reads this
    {
      passengers
    }

    function GetCurrentPrice(): (r: real)
      reads this
    {
      currentPrice
    }

    /** `addPassengers`: append in order, with no capacity check. */
    method AddPassengers(ps: seq<Passenger>)
      modifies this
      ensures passengers == old(passengers) + ps
      ensures currentPrice == old(currentPrice)
      ensures GetAvailableCapacity().Ok? ==> GetAvailableCapacity().value == old(GetAvailableCapacity()).value - |ps|
    {
      passengers := passengers + ps;
    }

    /** `removePassengers`: drop every enrolled passenger equal to one in `ps`. */
    method RemovePassengers(ps: seq<Passenger>)
      modifies this
      ensures passengers == RemoveAll(old(passengers), ps)
      ensures forall x :: x in passengers <==> x in old(passengers) && x !in ps
      ensures IsSubsequence(passengers, old(passengers))
      ensures currentPrice == old(currentPrice)
    {
      RemoveAllSpec(passengers, ps);
      passengers := RemoveAll(passengers, ps);
    }

    method SetCurrentPrice(price: real)
      modifies this
      ensures GetCurrentPrice() == price
      ensures passengers == old(passengers)
    {
      currentPrice := price;
    }
  }

  /** Adding passengers past the capacity is allowed: the available count then goes negative. */
  method OverbookingIsPossible() returns (f: ScheduledFlight)
    ensures f.GetAvailableCapacity() == Ok(-1)
  {
    var drone := Plane(PassengerDrone, DroneModel, DronePassengerCapacity, DroneCrewCapacity);
    f := new ScheduledFlight(1, "A", "B", AsPlane(drone), 0);
    var p := Passenger("p");
    f.AddPassengers([p, p, p, p, p]);
  }
}
