/** The trucks management page: the fuel and service classifiers shown on each
    truck card, the "Add Truck" form, and the fleet summary card. Dates are
    milliseconds since the epoch and the clock is a parameter. */
module TrucksManagement {
  import opened Options
  import opened Seqs
  import opened Strings
  import opened StatusColors
  import opened JsMath

  datatype TruckStatus = Available | InUse | Maintenance | OutOfService

  datatype Truck = Truck(
    id: string,
    licensePlate: string,
    model: string,
    capacity: int,
    status: TruckStatus,
    fuelLevel: int,
    currentLocation: Option<string>,
    assignedDriver: Option<string>,
    lastMaintenance: int,
    mileage: int,
    nextServiceDue: int)

  /** The fields the "Add Truck" form hands over (everything but `id`,
      `lastMaintenance` and `mileage`). */
  datatype TruckData = TruckData(
    licensePlate: string,
    model: string,
    capacity: int,
    status: TruckStatus,
    fuelLevel: int,
    currentLocation: Option<string>,
    assignedDriver: Option<string>,
    nextServiceDue: int)

  const DayMillis: nat := 24 * 60 * 60 * 1000

  /** The colour class of a fuel level. */
  function FuelColor(level: int): (color: string)
    ensures color == Emerald <==> level >= 70
    ensures color == Yellow <==> 30 <= level < 70
    ensures color == Red <==> level < 30
  {
    if level >= 70 then Emerald
    else if level >= 30 then Yellow
    else Red
  }

  /** More fuel never shows a worse colour. */
  lemma FuelColorMonotone(a: int, b: int)
    requires a <= b
    ensures ColorRank(FuelColor(a)) <= ColorRank(FuelColor(b))
  {
  }

  /** Whole days from `now` until `due`, rounded up. */
  function DaysUntil(due: int, now: int): (d: int)
    ensures (d - 1) * DayMillis < due - now <= d * DayMillis
  {
    CeilDiv(due - now, DayMillis)
  }

  datatype ServiceStatus = ServiceStatus(status: string, color: string, urgent: bool)

  /** The service line of a truck card. */
  function GetServiceStatus(nextService: int, now: int): (st: ServiceStatus)
    ensures var d := DaysUntil(nextService, now);
            && (st.status == "Due Soon" <==> d <= 7)
            && (st.status == "Upcoming" <==> 7 < d <= 30)
            && (st.status == "OK" <==> d > 30)
    ensures st.urgent <==> st.status == "Due Soon"
  {
    var d := DaysUntil(nextService, now);
    if d <= 7 then ServiceStatus("Due Soon", Red, true)
    else if d <= 30 then ServiceStatus("Upcoming", Yellow, false)
    else ServiceStatus("OK", Emerald, false)
  }

  /** A service due date further away is never more urgent. */
  lemma ServiceUrgencyMonotone(due1: int, due2: int, now: int)
    requires due1 <= due2
    ensures GetServiceStatus(due2, now).urgent ==> GetServiceStatus(due1, now).urgent
  {
  }

  /** The fuel field: `parseInt(...) || 100`, so an unparsable entry (NaN) and
      an entry of 0 both become 100. */
  function FuelDefault(parsed: Option<int>): (level: int)
    ensures parsed == None || parsed == Some(0) ==> level == 100
    ensures parsed.Some? && parsed.value != 0 ==> level == parsed.value
  {
    if parsed.None? || parsed.value == 0 then 100 else parsed.value
  }

  /** What the form submits: service due 90 days from submission; location and
      driver are not asked for. */
  function FormTruckData(licensePlate: string, model: string, capacity: int, status: TruckStatus,
                         parsedFuel: Option<int>, now: int): (data: TruckData)
    ensures data.fuelLevel == FuelDefault(parsedFuel)
    ensures data.nextServiceDue == now + 90 * DayMillis
    ensures data.currentLocation == None && data.assignedDriver == None
  {
    TruckData(licensePlate, model, capacity, status, FuelDefault(parsedFuel), None, None,
              now + 90 * DayMillis)
  }

  /** A truck added through the form is not due for service at the moment it is added. */
  lemma FreshTruckServiceOk(licensePlate: string, model: string, capacity: int, status: TruckStatus,
                            parsedFuel: Option<int>, now: int)
    ensures GetServiceStatus(FormTruckData(licensePlate, model, capacity, status, parsedFuel, now).nextServiceDue, now).status == "OK"
  {
    var due := now + 90 * DayMillis;
    assert due - now == 7776000000;
    assert (-7776000000) / 86400000 == -90;
  }

  /** A new truck: the form data under a fresh `truck-` id, serviced now, with no mileage. */
  function NewTruck(data: TruckData, now: nat): (t: Truck)
    ensures t.id == "truck-" + NatToString(now)
    ensures t.mileage == 0 && t.lastMaintenance == now
    ensures t.licensePlate == data.licensePlate && t.model == data.model
    ensures t.capacity == data.capacity && t.status == data.status && t.fuelLevel == data.fuelLevel
    ensures t.currentLocation == data.currentLocation && t.assignedDriver == data.assignedDriver
    ensures t.nextServiceDue == data.nextServiceDue
  {
    Truck("truck-" + NatToString(now), data.licensePlate, data.model, data.capacity, data.status,
          data.fuelLevel, data.currentLocation, data.assignedDriver, now, 0, data.nextServiceDue)
  }

  function HasStatus(s: TruckStatus): Truck -> bool
  {
    (t: Truck) => t.status == s
  }

  /** The number of trucks with status `s` (`trucks.filter(t => t.status === s).length`). */
  function CountStatus(trucks: seq<Truck>, s: TruckStatus): (n: nat)
    ensures n <= |trucks|
  {
    |Filter(trucks, HasStatus(s))|
  }

  /** The first truck counts under its own status only. */
  lemma CountStatusCons(trucks: seq<Truck>, s: TruckStatus)
    requires trucks != []
    ensures CountStatus(trucks, s) == (if trucks[0].status == s then 1 else 0) + CountStatus(trucks[1..], s)
  {
    assert [trucks[0]] + trucks[1..] == trucks;
    FilterConcat([trucks[0]], trucks[1..], HasStatus(s));
    FilterSingle(trucks[0], HasStatus(s));
  }

  /** The summary's three status figures leave out OUT_OF_SERVICE trucks, so
      with them the four counts add up to the fleet size and the three shown
      never exceed it. */
  lemma {:induction false} FleetCountsSum(trucks: seq<Truck>)
    ensures CountStatus(trucks, Available) + CountStatus(trucks, InUse)
            + CountStatus(trucks, Maintenance) + CountStatus(trucks, OutOfService) == |trucks|
    ensures CountStatus(trucks, Available) + CountStatus(trucks, InUse)
            + CountStatus(trucks, Maintenance) <= |trucks|
    decreases |trucks|
  {
    if trucks != [] {
      FleetCountsSum(trucks[1..]);
      CountStatusCons(trucks, Available);
      CountStatusCons(trucks, InUse);
      CountStatusCons(trucks, Maintenance);
      CountStatusCons(trucks, OutOfService);
    }
  }

  /** The "Total Capacity" figure: the sum of capacities. */
  function TotalCapacity(trucks: seq<Truck>): int
    decreases |trucks|
  {
    if trucks == [] then 0 else trucks[0].capacity + TotalCapacity(trucks[1..])
  }

  lemma {:induction false} TotalCapacityConcat(a: seq<Truck>, b: seq<Truck>)
    ensures TotalCapacity(a + b) == TotalCapacity(a) + TotalCapacity(b)
    decreases |a|
  {
    if a == [] {
      assert a + b == b;
    } else {
      assert (a + b)[1..] == a[1..] + b;
      TotalCapacityConcat(a[1..], b);
    }
  }

  /** Adding a truck raises its status count by one and leaves the others. */
  lemma CountStatusAppend(trucks: seq<Truck>, t: Truck, s: TruckStatus)
    ensures CountStatus(trucks + [t], s) == CountStatus(trucks, s) + (if t.status == s then 1 else 0)
  {
    FilterConcat(trucks, [t], HasStatus(s));
    FilterSingle(t, HasStatus(s));
  }

  class TrucksManagementState {
    var trucks: seq<Truck>
    var dialogOpen: bool

    constructor (initialTrucks: seq<Truck>)
      ensures trucks == initialTrucks && !dialogOpen
    {
      trucks := initialTrucks;
      dialogOpen := false;
    }

    /** Add a truck: it goes last, the fleet's capacity grows by its capacity,
        and the dialog closes. */
    method AddTruck(data: TruckData, now: nat)
      modifies this
      ensures trucks == old(trucks) + [NewTruck(data, now)]
      ensures TotalCapacity(trucks) == TotalCapacity(old(trucks)) + data.capacity
      ensures !dialogOpen
    {
      var t := NewTruck(data, now);
      TotalCapacityConcat(trucks, [t]);
      trucks := trucks + [t];
      dialogOpen := false;
    }
  }
}
