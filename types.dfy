/** The records of the parking application. Dates are integer millisecond
    timestamps; money is a `real`. */
module Types {
  import opened Wrappers

  /** The three vehicle categories; their string values are 'Car', 'Bike', 'Truck'. */
  datatype VehicleType = Car | Bike | Truck
  {
    function Name(): string
    {
      match this
      case Car => "Car"
      case Bike => "Bike"
      case Truck => "Truck"
    }
  }

  /** One hourly rate per vehicle category, so the lookup `rates[type]` is total. */
  datatype ParkingRates = ParkingRates(car: real, bike: real, truck: real)
  {
    function RateFor(t: VehicleType): real
    {
      match t
      case Car => car
      case Bike => bike
      case Truck => truck
    }

    /** `{ ...rates, [t]: value }`. */
    function With(t: VehicleType, value: real): (r: ParkingRates)
      ensures r.RateFor(t) == value
      ensures forall u :: u != t ==> r.RateFor(u) == RateFor(u)
    {
      match t
      case Car => this.(car := value)
      case Bike => this.(bike := value)
      case Truck => this.(truck := value)
    }

    predicate NonNegative()
    {
      car >= 0.0 && bike >= 0.0 && truck >= 0.0
    }
  }

  /** An active parking record; `contactNumber` and `notes` are optional. */
  datatype Vehicle = Vehicle(
    id: string,
    plateNumber: string,
    vehicleType: VehicleType,
    model: string,
    color: string,
    entryTime: int,
    slotId: int,
    contactNumber: Option<string>,
    notes: Option<string>)

  datatype SlotKind = Standard | Priority

  /** A parking position; `vehicleId` is `None` for the source's `null`. */
  datatype ParkingSlot = ParkingSlot(id: int, isOccupied: bool, vehicleId: Option<string>, kind: SlotKind)

  /** The only status a transaction can have. */
  datatype PaymentStatus = Paid

  /** A closed billing record. */
  datatype Transaction = Transaction(
    id: string,
    vehicleId: string,
    plateNumber: string,
    vehicleType: VehicleType,
    entryTime: int,
    exitTime: int,
    durationMinutes: int,
    baseAmount: real,
    extraAmount: real,
    discountAmount: real,
    finalAmount: real,
    status: PaymentStatus,
    items: Option<seq<string>>)

  datatype ActivityType = Entry | Exit | System

  datatype ActivityLog = ActivityLog(
    id: string,
    kind: ActivityType,
    message: string,
    timestamp: int,
    vehiclePlate: Option<string>)
}
