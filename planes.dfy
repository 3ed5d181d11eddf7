/**
 * Aircraft construction: the PassengerDrone constructor with its model guard and the
 * PlaneFactory that dispatches on a type name.
 */
module Planes {
  import opened Wrappers

  /** The three aircraft classes the factory knows of. */
  datatype PlaneKind = Helicopter | PassengerDrone | PassengerPlane

  /**
   * An `IPlane`: its kind, its model name and the two capacities its getters report.
   * Helicopter and PassengerPlane fix their capacities in classes that are not part of
   * this model, so a value carries the numbers instead of deriving them.
   */
  datatype Plane = Plane(kind: PlaneKind, model: string, passengerCapacity: int, crewCapacity: int)

  /** Both constructors and the factory reject a name with an IllegalArgumentException. */
  datatype PlaneError = UnrecognizedModel(model: string) | UnrecognizedType(planeType: string)

  /** The only drone model the PassengerDrone constructor accepts. */
  const DroneModel: string := "HypaHype"

  const DronePassengerCapacity: int := 4
  const DroneCrewCapacity: int := 0

  /** What every drone the model can build looks like. */
  predicate IsValidDrone(p: Plane) {
    p.kind == PassengerDrone && p.model == DroneModel
    && p.passengerCapacity == DronePassengerCapacity && p.crewCapacity == DroneCrewCapacity
  }

  /** `new PassengerDrone(model)`: succeeds for "HypaHype" only. */
  function NewPassengerDrone(model: string): (r: Result<Plane, PlaneError>)
    ensures r.Ok? <==> model == "HypaHype"
    ensures r.Ok? ==> r.value.kind == PassengerDrone && r.value.model == model
    ensures r.Ok? ==> r.value.passengerCapacity == 4 && r.value.crewCapacity == 0
    ensures r.Err? ==> r.error == UnrecognizedModel(model)
  {
    if model == DroneModel then
      Ok(Plane(PassengerDrone, model, DronePassengerCapacity, DroneCrewCapacity))
    else
      Err(UnrecognizedModel(model))
  }

  /**
   * `PlaneFactory.createPlane(type, model)`. The Helicopter and PassengerPlane
   * constructors are outside this model and are passed in.
   */
  function CreatePlane(planeType: string, model: string,
                       newHelicopter: string -> Result<Plane, PlaneError>,
                       newPassengerPlane: string -> Result<Plane, PlaneError>): (r: Result<Plane, PlaneError>)
    ensures planeType == "Helicopter" ==> r == newHelicopter(model)
    ensures planeType == "PassengerDrone" ==> r == NewPassengerDrone(model)
    ensures planeType == "PassengerPlane" ==> r == newPassengerPlane(model)
    ensures planeType !in {"Helicopter", "PassengerDrone", "PassengerPlane"} ==> r == Err(UnrecognizedType(planeType))
  {
    match planeType
    case "Helicopter" => newHelicopter(model)
    case "PassengerDrone" => NewPassengerDrone(model)
    case "PassengerPlane" => newPassengerPlane(model)
    case _ => Err(UnrecognizedType(planeType))
  }

  /** A drone obtained from the factory is always a valid "HypaHype" with 4 seats and no crew. */
  lemma FactoryDroneIsValid(model: string,
                            newHelicopter: string -> Result<Plane, PlaneError>,
                            newPassengerPlane: string -> Result<Plane, PlaneError>)
    ensures var r := CreatePlane("PassengerDrone", model, newHelicopter, newPassengerPlane);
            (r.Ok? <==> model == DroneModel) && (r.Ok? ==> IsValidDrone(r.value))
  {
  }
}
