/** src/components/modals/TripModal.tsx: the create/edit trip dialog. The form state,
    its field-by-field change handler with the mileage auto-calculation, validation,
    trip numbering, and the route and driver pickers that fill other fields. The lists
    of drivers, trucks, trailers and routes are the documents the dialog loaded. */
module TripModal {
  import opened Js

  // ---------------------------------------------------------------------------
  // Documents the pickers read (a field is None when the document lacks it)
  // ---------------------------------------------------------------------------

  datatype DriverDoc = DriverDoc(id: string, fullName: Option<string>, licenseNumber: Option<string>)

  datatype TruckDoc = TruckDoc(id: string, make: Option<string>, model: Option<string>,
                               assignedDriverId: Option<string>, truckNumber: Option<string>)

  datatype TrailerDoc = TrailerDoc(id: string, trailerNumber: Option<string>,
                                   assignedTruckNumber: Option<string>)

  datatype RouteDoc = RouteDoc(id: string,
                               pickupAddress: Option<string>, pickupCity: Option<string>,
                               pickupState: Option<string>, dropoffAddress: Option<string>,
                               dropoffCity: Option<string>, dropoffState: Option<string>)

  // ---------------------------------------------------------------------------
  // The form
  // ---------------------------------------------------------------------------

  datatype Place = Place(address: string, city: string, state: string)

  datatype RouteDetails = RouteDetails(pickup: Place, dropoff: Place)

  const EmptyDetails := RouteDetails(Place("", "", ""), Place("", "", ""))

  /** The trailer slot holds the text picked from its menu, or the whole trailer
      document the driver picker puts there. */
  datatype Entry = Text(s: string) | TrailerRecord(t: TrailerDoc)

  datatype TripForm = TripForm(
    tripNumber: string, status: string, route: string, driver: string, truck: string,
    trailer: Entry, startDate: string, endDate: string,
    startingMiles: string, endingMiles: string, totalTripDrivenMiles: Value,
    fuelCost: string, driverPayment: string, totalRevenue: string,
    otherExpenses: string, notes: string, routeDetails: RouteDetails)

  /** The blank form of a new trip, numbered `tripNumber`. */
  function NewTrip(tripNumber: string): (f: TripForm)
    ensures f.tripNumber == tripNumber && f.status == "Scheduled"
    ensures f.route == "" && f.driver == "" && f.truck == "" && f.trailer == Text("")
    ensures f.routeDetails == EmptyDetails && f.totalTripDrivenMiles == Str("")
  {
    TripForm(tripNumber, "Scheduled", "", "", "", Text(""), "", "", "", "", Str(""),
             "", "", "", "", "", EmptyDetails)
  }

  /** The inputs wired to `handleChange`, by their `name` attribute. */
  datatype Field = Status | Truck | Trailer | StartDate | EndDate | StartingMiles
                 | EndingMiles | FuelCost | DriverPayment | TotalRevenue | OtherExpenses | Notes

  function FieldOf(f: TripForm, n: Field): Entry {
    match n
    case Status => Text(f.status)
    case Truck => Text(f.truck)
    case Trailer => f.trailer
    case StartDate => Text(f.startDate)
    case EndDate => Text(f.endDate)
    case StartingMiles => Text(f.startingMiles)
    case EndingMiles => Text(f.endingMiles)
    case FuelCost => Text(f.fuelCost)
    case DriverPayment => Text(f.driverPayment)
    case TotalRevenue => Text(f.totalRevenue)
    case OtherExpenses => Text(f.otherExpenses)
    case Notes => Text(f.notes)
  }

  /** `{ ...prev, [name]: value }` */
  function Set(f: TripForm, n: Field, v: string): (r: TripForm)
    ensures FieldOf(r, n) == Text(v)
    ensures forall m :: m != n ==> FieldOf(r, m) == FieldOf(f, m)
    ensures r.tripNumber == f.tripNumber && r.route == f.route && r.driver == f.driver
    ensures r.totalTripDrivenMiles == f.totalTripDrivenMiles && r.routeDetails == f.routeDetails
  {
    match n
    case Status => f.(status := v)
    case Truck => f.(truck := v)
    case Trailer => f.(trailer := Text(v))
    case StartDate => f.(startDate := v)
    case EndDate => f.(endDate := v)
    case StartingMiles => f.(startingMiles := v)
    case EndingMiles => f.(endingMiles := v)
    case FuelCost => f.(fuelCost := v)
    case DriverPayment => f.(driverPayment := v)
    case TotalRevenue => f.(totalRevenue := v)
    case OtherExpenses => f.(otherExpenses := v)
    case Notes => f.(notes := v)
  }

  /** The trip miles shown once `start` and `end` are read as numbers: their
      difference when both are numbers and the end is not below the start, otherwise
      the empty string. */
  function TripMiles(start: JsNumber, end: JsNumber): (r: Value)
    ensures r == Str("") || (r.Num? && r.n.Int? && r.n.i >= 0)
    ensures r.Num? <==> start.Int? && end.Int? && end.i >= start.i
    ensures r.Num? ==> start.i + r.n.i == end.i
  {
    if start.Int? && end.Int? && end.i >= start.i then Num(Int(end.i - start.i)) else Str("")
  }

  /** The reading a mileage field contributes: the value being typed for the field
      being edited, otherwise `Number(prev.field || 0)`. */
  function Reading(prev: string, edited: bool, v: string): JsNumber {
    if edited then ParseNumber(v) else ToNumber(Or(Str(prev), Num(Int(0))))
  }

  /** The state the `setForm(prev => …)` updater of `handleChange` returns. */
  function Changed(prev: TripForm, n: Field, v: string): (r: TripForm)
    ensures FieldOf(r, n) == Text(v)
    ensures forall m :: m != n ==> FieldOf(r, m) == FieldOf(prev, m)
    ensures r.tripNumber == prev.tripNumber && r.route == prev.route && r.driver == prev.driver
    ensures r.routeDetails == prev.routeDetails
    ensures n != StartingMiles && n != EndingMiles ==> r.totalTripDrivenMiles == prev.totalTripDrivenMiles
    ensures r.totalTripDrivenMiles == prev.totalTripDrivenMiles || r.totalTripDrivenMiles == Str("")
            || (r.totalTripDrivenMiles.Num? && r.totalTripDrivenMiles.n.Int? && r.totalTripDrivenMiles.n.i >= 0)
  {
    var updated := Set(prev, n, v);
    if n == StartingMiles || n == EndingMiles then
      var start := Reading(prev.startingMiles, n == StartingMiles, v);
      var end := Reading(prev.endingMiles, n == EndingMiles, v);
      updated.(totalTripDrivenMiles := TripMiles(start, end))
    else updated
  }

  /** Editing a field other than the two readings replaces exactly that field and
      leaves the trip miles alone. */
  lemma ChangedOtherField(prev: TripForm, n: Field, v: string)
    requires n != StartingMiles && n != EndingMiles
    ensures FieldOf(Changed(prev, n, v), n) == Text(v)
    ensures forall m :: m != n ==> FieldOf(Changed(prev, n, v), m) == FieldOf(prev, m)
    ensures Changed(prev, n, v).totalTripDrivenMiles == prev.totalTripDrivenMiles
    ensures Changed(prev, n, v).routeDetails == prev.routeDetails
    ensures Changed(prev, n, v).tripNumber == prev.tripNumber
  {
  }

  /** Editing a reading stores it and recomputes the trip miles from the new value
      and the other reading, an empty other reading counting as 0; the result is
      never negative. */
  lemma ChangedReading(prev: TripForm, n: Field, v: string)
    requires n == StartingMiles || n == EndingMiles
    ensures FieldOf(Changed(prev, n, v), n) == Text(v)
    ensures forall m :: m != n ==> FieldOf(Changed(prev, n, v), m) == FieldOf(prev, m)
    ensures var s := if n == StartingMiles then ParseNumber(v) else ParseNumber(prev.startingMiles);
            var e := if n == EndingMiles then ParseNumber(v) else ParseNumber(prev.endingMiles);
            Changed(prev, n, v).totalTripDrivenMiles == TripMiles(s, e)
    ensures var t := Changed(prev, n, v).totalTripDrivenMiles;
            t == Str("") || (t.Num? && t.n.Int? && t.n.i >= 0)
  {
    ReadingOfText(prev.startingMiles);
    ReadingOfText(prev.endingMiles);
  }

  /** `Number(s || 0)` is `Number(s)` for strings: the empty string reads as 0 either way. */
  lemma ReadingOfText(s: string)
    ensures Reading(s, false, "") == ParseNumber(s)
    ensures s == "" ==> Reading(s, false, "") == Int(0)
  {
    if s == "" {
      assert IsBlank(s);
    }
  }

  /** Typing a start reading of `k` while the end reading is empty gives trip miles
      only for `k <= 0`. */
  lemma MissingEndCountsAsZero(prev: TripForm, v: string, k: int)
    requires prev.endingMiles == "" && ParseNumber(v) == Int(k)
    ensures Changed(prev, StartingMiles, v).totalTripDrivenMiles
            == if k <= 0 then Num(Int(0 - k)) else Str("")
  {
    ReadingOfText(prev.endingMiles);
  }

  // ---------------------------------------------------------------------------
  // validate
  // ---------------------------------------------------------------------------

  /** The keys `validate` writes into its error object. */
  datatype ErrorKey = TripNumberKey | DriverKey | TruckKey | RouteKey | StartDateKey
                    | EndDateKey | StartingMilesKey

  const TripNumberRequired := "Trip number is required"
  const DriverRequired := "Driver is required"
  const TruckRequired := "Truck is required"
  const RouteRequired := "Route is required"
  const StartDateRequired := "Start date is required"
  const EndDateRequired := "End date is required"
  const EndBeforeStart := "End date cannot be before start date"
  const StartingMilesRequired := "Starting Trip miles is required"

  /** The end-date order check: both dates set and the end before the start. */
  predicate EndsBeforeStart(f: TripForm) {
    f.startDate != "" && f.endDate != "" && StrLess(f.endDate, f.startDate)
  }

  /** The errors `validate` records, in insertion order. */
  function TripErrors(f: TripForm): Errors<ErrorKey> {
    NoErrors()
      .PutIf(IsBlank(f.tripNumber), TripNumberKey, TripNumberRequired)
      .PutIf(IsBlank(f.driver), DriverKey, DriverRequired)
      .PutIf(IsBlank(f.truck), TruckKey, TruckRequired)
      .PutIf(IsBlank(f.route), RouteKey, RouteRequired)
      .PutIf(f.startDate == "", StartDateKey, StartDateRequired)
      .PutIf(f.endDate == "", EndDateKey, EndDateRequired)
      .PutIf(EndsBeforeStart(f), EndDateKey, EndBeforeStart)
      .PutIf(IsBlank(f.startingMiles), StartingMilesKey, StartingMilesRequired)
  }

  /** The form is accepted iff every required field is filled in and the end date is
      not before the start date. */
  predicate TripComplete(f: TripForm) {
    !IsBlank(f.tripNumber) && !IsBlank(f.driver) && !IsBlank(f.truck) && !IsBlank(f.route)
    && f.startDate != "" && f.endDate != "" && !StrLess(f.endDate, f.startDate)
    && !IsBlank(f.startingMiles)
  }

  lemma TripErrorsEmptyIff(f: TripForm)
    ensures TripErrors(f).Empty() <==> TripComplete(f)
  {
  }

  /** Trip number, driver and truck each have an error iff blank, with their own
      message. */
  lemma TripAssignmentMessages(f: TripForm)
    ensures TripErrors(f).Lookup(TripNumberKey) == if IsBlank(f.tripNumber) then Some(TripNumberRequired) else None
    ensures TripErrors(f).Lookup(DriverKey) == if IsBlank(f.driver) then Some(DriverRequired) else None
    ensures TripErrors(f).Lookup(TruckKey) == if IsBlank(f.truck) then Some(TruckRequired) else None
  {
  }

  /** Route and starting miles have an error iff blank, with their own message. */
  lemma TripRouteMessages(f: TripForm)
    ensures TripErrors(f).Lookup(RouteKey) == if IsBlank(f.route) then Some(RouteRequired) else None
    ensures TripErrors(f).Lookup(StartingMilesKey)
            == if IsBlank(f.startingMiles) then Some(StartingMilesRequired) else None
  {
  }

  /** The messages recorded under the two dates: the order check only runs when both
      dates are set, so it never overwrites "End date is required". */
  lemma TripDateMessages(f: TripForm)
    ensures TripErrors(f).Lookup(StartDateKey) == if f.startDate == "" then Some(StartDateRequired) else None
    ensures TripErrors(f).Lookup(EndDateKey)
            == if f.endDate == "" then Some(EndDateRequired)
               else if f.startDate != "" && StrLess(f.endDate, f.startDate) then Some(EndBeforeStart)
               else None
  {
  }

  // ---------------------------------------------------------------------------
  // getNextTripNumber
  // ---------------------------------------------------------------------------

  /** The number of the next trip of `year` when `count` trips exist. */
  function NextTripNumber(year: nat, count: nat): (r: string)
    ensures r == "FP-" + NatToString(year) + "-" + NatToString(count + 1)
  {
    if count == 0 then "FP-" + NatToString(year) + "-1"
    else "FP-" + NatToString(year) + "-" + NatToString(count + 1)
  }

  /** Different trip counts give different numbers within one year. */
  lemma NextTripNumberInjective(year: nat, a: nat, b: nat)
    requires NextTripNumber(year, a) == NextTripNumber(year, b)
    ensures a == b
  {
    var p := "FP-" + NatToString(year) + "-";
    var ra, rb := NatToString(a + 1), NatToString(b + 1);
    assert NextTripNumber(year, a) == p + ra;
    assert NextTripNumber(year, b) == p + rb;
    assert (p + ra)[|p|..] == ra;
    assert (p + rb)[|p|..] == rb;
    NatToStringInjective(a + 1, b + 1);
  }

  // ---------------------------------------------------------------------------
  // The route picker
  // ---------------------------------------------------------------------------

  const NewRoute := "__new__"

  /** The pickup and dropoff copied from a saved route, missing parts as "". */
  function DetailsOf(r: RouteDoc): (d: RouteDetails)
    ensures d.pickup.address == OrString(r.pickupAddress, "") && d.pickup.city == OrString(r.pickupCity, "")
    ensures d.pickup.state == OrString(r.pickupState, "")
    ensures d.dropoff.address == OrString(r.dropoffAddress, "") && d.dropoff.city == OrString(r.dropoffCity, "")
    ensures d.dropoff.state == OrString(r.dropoffState, "")
  {
    RouteDetails(
      Place(OrString(r.pickupAddress, ""), OrString(r.pickupCity, ""), OrString(r.pickupState, "")),
      Place(OrString(r.dropoffAddress, ""), OrString(r.dropoffCity, ""), OrString(r.dropoffState, "")))
  }

  /** The form after `handleRouteSelect(routeId)`. */
  function RouteSelected(prev: TripForm, routes: seq<RouteDoc>, routeId: string): (r: TripForm)
    ensures routeId == NewRoute ==> r == prev.(route := "")
    ensures routeId != NewRoute && (forall i :: 0 <= i < |routes| ==> routes[i].id != routeId)
            ==> r == prev
    ensures routeId != NewRoute && (exists i :: 0 <= i < |routes| && routes[i].id == routeId)
            ==> r.route == routeId
                && exists i :: 0 <= i < |routes| && routes[i].id == routeId
                               && r == prev.(route := routeId, routeDetails := DetailsOf(routes[i]))
  {
    if routeId == NewRoute then prev.(route := "")
    else match Find(routes, (x: RouteDoc) => x.id == routeId)
      case None => prev
      case Some(sel) => prev.(route := routeId, routeDetails := DetailsOf(sel))
  }

  /** The form after the route menu's `onChange`: the new-route entry also clears the
      copied details before the handler is bypassed. */
  function RouteMenuChanged(prev: TripForm, routes: seq<RouteDoc>, value: string): (r: TripForm)
    ensures value == NewRoute ==> r.route == "" && r.routeDetails == EmptyDetails
                                  && r.(route := prev.route, routeDetails := prev.routeDetails) == prev
    ensures value != NewRoute ==> r == RouteSelected(prev, routes, value)
  {
    if value == NewRoute then prev.(route := "", routeDetails := EmptyDetails)
    else RouteSelected(prev, routes, value)
  }

  // ---------------------------------------------------------------------------
  // The driver picker
  // ---------------------------------------------------------------------------

  /** `${t.make} ${t.model}`, a missing part rendering as "undefined". */
  function TruckName(t: TruckDoc): (s: string)
    ensures s != ""
    ensures t.make.Some? && t.model.Some? ==> s == t.make.value + " " + t.model.value
    ensures |s| == |Interpolate(t.make)| + 1 + |Interpolate(t.model)|
    ensures t.make.None? ==> s[..10] == "undefined "
    ensures t.model.None? ==> s[|s| - 10..] == " undefined"
  {
    Interpolate(t.make) + " " + Interpolate(t.model)
  }

  function Interpolate(o: Option<string>): string {
    if o.Some? then o.value else "undefined"
  }

  /** `handleDriverSelect` as written: the driver is looked up by document id, while
      the driver menu supplies each driver's licence number; a trailer is matched to
      the truck with `===`, which also holds when both numbers are missing. */
  function DriverSelectedAsWritten(prev: TripForm, drivers: seq<DriverDoc>, trucks: seq<TruckDoc>,
                                   trailers: seq<TrailerDoc>, driverId: string): (r: TripForm)
    ensures r.driver == driverId
    ensures r == prev.(driver := driverId, truck := r.truck, trailer := r.trailer)
    ensures r.truck == "" ==> r.trailer == Text("")
    ensures (forall i :: 0 <= i < |drivers| ==> drivers[i].id != driverId)
            ==> r == prev.(driver := driverId, truck := "", trailer := Text(""))
  {
    var cleared := prev.(driver := driverId, truck := "", trailer := Text(""));
    match Find(drivers, (d: DriverDoc) => d.id == driverId)
    case None => cleared
    case Some(d) =>
      match Find(trucks, (t: TruckDoc) => t.assignedDriverId == d.licenseNumber)
      case None => cleared
      case Some(t) =>
        var withTruck := cleared.(truck := TruckName(t));
        match Find(trailers, (x: TrailerDoc) => x.assignedTruckNumber == t.truckNumber)
        case None => withTruck
        case Some(x) => withTruck.(trailer := TrailerRecord(x))
  }

  /** For the driver found by id (the first one whose document id is `driverId`): the
      truck is filled in iff some truck is assigned to that driver's licence number,
      and then it is the first such truck; the trailer is filled in iff some trailer
      is assigned to that truck's number, missing numbers included, and then it is the
      first such trailer. */
  lemma DriverSelectedAsWrittenSpec(prev: TripForm, drivers: seq<DriverDoc>, trucks: seq<TruckDoc>,
                                    trailers: seq<TrailerDoc>, driverId: string, i: nat)
    requires i < |drivers| && drivers[i].id == driverId
    requires forall k :: 0 <= k < i ==> drivers[k].id != driverId
    ensures var r := DriverSelectedAsWritten(prev, drivers, trucks, trailers, driverId);
            r.truck != "" <==> exists j :: 0 <= j < |trucks| && trucks[j].assignedDriverId == drivers[i].licenseNumber
    ensures var r := DriverSelectedAsWritten(prev, drivers, trucks, trailers, driverId);
            forall j :: 0 <= j < |trucks| && trucks[j].assignedDriverId == drivers[i].licenseNumber
                        && (forall k :: 0 <= k < j ==> trucks[k].assignedDriverId != drivers[i].licenseNumber)
                        ==> r.truck == TruckName(trucks[j])
                            && (r.trailer.TrailerRecord?
                                <==> exists k :: 0 <= k < |trailers| && trailers[k].assignedTruckNumber == trucks[j].truckNumber)
                            && forall k :: 0 <= k < |trailers| && trailers[k].assignedTruckNumber == trucks[j].truckNumber
                                           && (forall l :: 0 <= l < k ==> trailers[l].assignedTruckNumber != trucks[j].truckNumber)
                                           ==> r.trailer == TrailerRecord(trailers[k])
  {
    var lic := drivers[i].licenseNumber;
    FindFirst(drivers, (d: DriverDoc) => d.id == driverId, i);
    var r := DriverSelectedAsWritten(prev, drivers, trucks, trailers, driverId);
    forall j | 0 <= j < |trucks| && trucks[j].assignedDriverId == lic
               && (forall k :: 0 <= k < j ==> trucks[k].assignedDriverId != lic)
      ensures r.truck == TruckName(trucks[j])
      ensures r.trailer.TrailerRecord?
              <==> exists k :: 0 <= k < |trailers| && trailers[k].assignedTruckNumber == trucks[j].truckNumber
      ensures forall k :: 0 <= k < |trailers| && trailers[k].assignedTruckNumber == trucks[j].truckNumber
                          && (forall l :: 0 <= l < k ==> trailers[l].assignedTruckNumber != trucks[j].truckNumber)
                          ==> r.trailer == TrailerRecord(trailers[k])
    {
      FindFirst(trucks, (t: TruckDoc) => t.assignedDriverId == lic, j);
      var t := trucks[j];
      forall k | 0 <= k < |trailers| && trailers[k].assignedTruckNumber == t.truckNumber
                 && (forall l :: 0 <= l < k ==> trailers[l].assignedTruckNumber != t.truckNumber)
        ensures r.trailer == TrailerRecord(trailers[k])
      {
        FindFirst(trailers, (x: TrailerDoc) => x.assignedTruckNumber == t.truckNumber, k);
      }
    }
  }

  /** `Find` returns the element at the first index that satisfies the predicate. */
  lemma FindFirst<T>(xs: seq<T>, p: T -> bool, i: nat)
    requires i < |xs| && p(xs[i])
    requires forall k :: 0 <= k < i ==> !p(xs[k])
    ensures Find(xs, p) == Some(xs[i])
  {
    var r := Find(xs, p);
    var i' :| 0 <= i' < |xs| && xs[i'] == r.value && p(xs[i']) && forall k :: 0 <= k < i' ==> !p(xs[k]);
    assert i' == i;
  }

  /** A driver saved under an generated id and picked from the menu by licence number:
      the truck assigned to that licence is not filled in. */
  lemma AsWrittenMissesAssignedTruck()
    ensures var drivers := [DriverDoc("x7Gq", Some("Ann Lee"), Some("D123"))];
            var trucks := [TruckDoc("t1", Some("Volvo"), Some("VNL"), Some("D123"), Some("T-9"))];
            DriverSelectedAsWritten(NewTrip("FP-2026-1"), drivers, trucks, [], "D123").truck == ""
  {
  }

  /** A truck without a number is paired with a trailer assigned to no truck. */
  lemma AsWrittenPairsUnassignedTrailer()
    ensures var drivers := [DriverDoc("D123", Some("Ann Lee"), Some("D123"))];
            var trucks := [TruckDoc("t1", Some("Volvo"), Some("VNL"), Some("D123"), None)];
            var trailers := [TrailerDoc("r1", Some("TR-7"), None)];
            DriverSelectedAsWritten(NewTrip("FP-2026-1"), drivers, trucks, trailers, "D123").trailer
            == TrailerRecord(TrailerDoc("r1", Some("TR-7"), None))
  {
  }

  /** `handleDriverSelect` as intended: the driver is the one whose licence number the
      menu supplied, the truck is the first one assigned to that licence, and the
      trailer is the first one assigned to that truck's number, when it has one. */
  function DriverSelected(prev: TripForm, drivers: seq<DriverDoc>, trucks: seq<TruckDoc>,
                          trailers: seq<TrailerDoc>, driverId: string): TripForm
  {
    var cleared := prev.(driver := driverId, truck := "", trailer := Text(""));
    match Find(drivers, (d: DriverDoc) => d.licenseNumber == Some(driverId))
    case None => cleared
    case Some(d) =>
      match Find(trucks, (t: TruckDoc) => t.assignedDriverId == d.licenseNumber)
      case None => cleared
      case Some(t) =>
        var withTruck := cleared.(truck := TruckName(t));
        match Find(trailers, (x: TrailerDoc) => t.truckNumber.Some? && x.assignedTruckNumber == t.truckNumber)
        case None => withTruck
        case Some(x) => withTruck.(trailer := TrailerRecord(x))
  }

  /** Picking a driver records the choice and clears truck and trailer; the truck is
      filled in iff some driver has that licence number and some truck is assigned to
      it, and then it is the first such truck; a trailer is filled in only together
      with a truck that has a number, and is assigned to that number. Nothing else
      changes. */
  lemma DriverSelectedSpec(prev: TripForm, drivers: seq<DriverDoc>, trucks: seq<TruckDoc>,
                           trailers: seq<TrailerDoc>, driverId: string)
    ensures var r := DriverSelected(prev, drivers, trucks, trailers, driverId);
            r.driver == driverId
            && r == prev.(driver := driverId, truck := r.truck, trailer := r.trailer)
    ensures var r := DriverSelected(prev, drivers, trucks, trailers, driverId);
            r.truck != "" <==> (exists i :: 0 <= i < |drivers| && drivers[i].licenseNumber == Some(driverId))
                               && (exists j :: 0 <= j < |trucks| && trucks[j].assignedDriverId == Some(driverId))
    ensures var r := DriverSelected(prev, drivers, trucks, trailers, driverId);
            r.truck != "" ==> exists j :: 0 <= j < |trucks| && trucks[j].assignedDriverId == Some(driverId)
                                          && r.truck == TruckName(trucks[j])
                                          && forall k :: 0 <= k < j ==> trucks[k].assignedDriverId != Some(driverId)
    ensures var r := DriverSelected(prev, drivers, trucks, trailers, driverId);
            r.trailer == Text("") ||
            exists j, k :: 0 <= j < |trucks| && 0 <= k < |trailers|
                           && trucks[j].assignedDriverId == Some(driverId) && r.truck == TruckName(trucks[j])
                           && trucks[j].truckNumber.Some?
                           && trailers[k].assignedTruckNumber == trucks[j].truckNumber
                           && r.trailer == TrailerRecord(trailers[k])
  {
    var pd := (d: DriverDoc) => d.licenseNumber == Some(driverId);
    var fd := Find(drivers, pd);
    if fd.Some? {
      var pt := (t: TruckDoc) => t.assignedDriverId == fd.value.licenseNumber;
      var ft := Find(trucks, pt);
      assert forall j :: 0 <= j < |trucks| ==> (pt(trucks[j]) <==> trucks[j].assignedDriverId == Some(driverId));
      if ft.Some? {
        var t := ft.value;
        var px := (x: TrailerDoc) => t.truckNumber.Some? && x.assignedTruckNumber == t.truckNumber;
        var fx := Find(trailers, px);
        if fx.Some? {
          var j :| 0 <= j < |trucks| && trucks[j] == t && pt(trucks[j]);
          var k :| 0 <= k < |trailers| && trailers[k] == fx.value && px(trailers[k]);
          assert trucks[j].assignedDriverId == Some(driverId);
        }
      }
    }
  }

  /** With every driver's id equal to their licence number the two readings agree,
      except for the pairing of trucks and trailers that both lack a number. */
  lemma DriverSelectedMatchesAsWritten(prev: TripForm, drivers: seq<DriverDoc>, trucks: seq<TruckDoc>,
                                       trailers: seq<TrailerDoc>, driverId: string)
    requires forall i :: 0 <= i < |drivers| ==> drivers[i].licenseNumber == Some(drivers[i].id)
    requires forall j :: 0 <= j < |trucks| ==> trucks[j].truckNumber.Some?
    ensures DriverSelected(prev, drivers, trucks, trailers, driverId)
            == DriverSelectedAsWritten(prev, drivers, trucks, trailers, driverId)
  {
    var p := (d: DriverDoc) => d.id == driverId;
    var q := (d: DriverDoc) => d.licenseNumber == Some(driverId);
    FindCongruent(drivers, p, q);
    var fd := Find(drivers, q);
    if fd.Some? {
      var ft := Find(trucks, (t: TruckDoc) => t.assignedDriverId == fd.value.licenseNumber);
      if ft.Some? {
        var t := ft.value;
        assert t in trucks;
        FindCongruent(trailers, (x: TrailerDoc) => x.assignedTruckNumber == t.truckNumber,
                      (x: TrailerDoc) => t.truckNumber.Some? && x.assignedTruckNumber == t.truckNumber);
      }
    }
  }

  lemma {:induction false} FindCongruent<T>(xs: seq<T>, p: T -> bool, q: T -> bool)
    requires forall i :: 0 <= i < |xs| ==> p(xs[i]) == q(xs[i])
    ensures Find(xs, p) == Find(xs, q)
  {
    if xs != [] {
      FindCongruent(xs[1..], p, q);
    }
  }

  // ---------------------------------------------------------------------------
  // The dialog
  // ---------------------------------------------------------------------------

  class Dialog {
    var form: TripForm
    var errors: Errors<ErrorKey>
    var isNewRoute: bool
    var drivers: seq<DriverDoc>
    var trucks: seq<TruckDoc>
    var trailers: seq<TrailerDoc>
    var routes: seq<RouteDoc>

    /** A dialog opened for a new trip, after the trip number was fetched: `count`
        trips exist and it is `year`. */
    constructor Open(year: nat, count: nat, drivers: seq<DriverDoc>, trucks: seq<TruckDoc>,
                     trailers: seq<TrailerDoc>, routes: seq<RouteDoc>)
      ensures form == NewTrip(NextTripNumber(year, count))
      ensures errors == NoErrors() && !isNewRoute
      ensures this.drivers == drivers && this.trucks == trucks
      ensures this.trailers == trailers && this.routes == routes
    {
      form := NewTrip(NextTripNumber(year, count));
      errors := NoErrors();
      isNewRoute := false;
      this.drivers := drivers;
      this.trucks := trucks;
      this.trailers := trailers;
      this.routes := routes;
    }

    /** `handleChange` for the input named `n`. */
    method HandleChange(n: Field, v: string)
      modifies this
      ensures form == Changed(old(form), n, v)
      ensures errors == old(errors) && isNewRoute == old(isNewRoute)
      ensures drivers == old(drivers) && trucks == old(trucks)
      ensures trailers == old(trailers) && routes == old(routes)
    {
      var updated := Set(form, n, v);
      if n == StartingMiles || n == EndingMiles {
        var start := if n == StartingMiles then ParseNumber(v)
                     else ToNumber(Or(Str(form.startingMiles), Num(Int(0))));
        var end := if n == EndingMiles then ParseNumber(v)
                   else ToNumber(Or(Str(form.endingMiles), Num(Int(0))));
        if start.Int? && end.Int? && end.i >= start.i {
          updated := updated.(totalTripDrivenMiles := Num(Int(end.i - start.i)));
        } else {
          updated := updated.(totalTripDrivenMiles := Str(""));
        }
      }
      form := updated;
    }

    /** `validate`: records the errors and answers whether there are none. */
    method Validate() returns (ok: bool)
      modifies this
      ensures errors == TripErrors(form)
      ensures ok <==> TripComplete(form)
      ensures form == old(form) && isNewRoute == old(isNewRoute)
      ensures drivers == old(drivers) && trucks == old(trucks)
      ensures trailers == old(trailers) && routes == old(routes)
    {
      var newErrors: Errors<ErrorKey> := NoErrors();
      newErrors := newErrors.PutIf(IsBlank(form.tripNumber), TripNumberKey, TripNumberRequired);
      newErrors := newErrors.PutIf(IsBlank(form.driver), DriverKey, DriverRequired);
      newErrors := newErrors.PutIf(IsBlank(form.truck), TruckKey, TruckRequired);
      newErrors := newErrors.PutIf(IsBlank(form.route), RouteKey, RouteRequired);
      newErrors := newErrors.PutIf(form.startDate == "", StartDateKey, StartDateRequired);
      newErrors := newErrors.PutIf(form.endDate == "", EndDateKey, EndDateRequired);
      newErrors := newErrors.PutIf(EndsBeforeStart(form), EndDateKey, EndBeforeStart);
      newErrors := newErrors.PutIf(IsBlank(form.startingMiles), StartingMilesKey, StartingMilesRequired);
      TripErrorsEmptyIff(form);
      errors := newErrors;
      ok := newErrors.Empty();
    }

    /** `handleRouteSelect`. */
    method HandleRouteSelect(routeId: string)
      modifies this
      ensures form == RouteSelected(old(form), routes, routeId)
      ensures isNewRoute == (routeId == NewRoute || old(isNewRoute))
      ensures errors == old(errors) && routes == old(routes) && drivers == old(drivers)
      ensures trucks == old(trucks) && trailers == old(trailers)
    {
      if routeId == NewRoute {
        isNewRoute := true;
        form := form.(route := "");
        return;
      }
      var selected := Find(routes, (x: RouteDoc) => x.id == routeId);
      if selected.Some? {
        form := form.(route := routeId, routeDetails := DetailsOf(selected.value));
      }
    }

    /** The route menu's `onChange`. */
    method OnRouteMenuChange(value: string)
      modifies this
      ensures form == RouteMenuChanged(old(form), routes, value)
      ensures isNewRoute == (value == NewRoute || old(isNewRoute))
      ensures errors == old(errors) && routes == old(routes) && drivers == old(drivers)
      ensures trucks == old(trucks) && trailers == old(trailers)
    {
      if value == NewRoute {
        isNewRoute := true;
        form := form.(route := "", routeDetails := EmptyDetails);
      } else {
        HandleRouteSelect(value);
      }
    }

    /** `handleDriverSelect`: up to three successive updates of the form. The driver
        is looked up by document id, although the menu supplies licence numbers. */
    method HandleDriverSelect(driverId: string)
      modifies this
      ensures form == DriverSelectedAsWritten(old(form), drivers, trucks, trailers, driverId)
      ensures errors == old(errors) && isNewRoute == old(isNewRoute) && routes == old(routes)
      ensures drivers == old(drivers) && trucks == old(trucks) && trailers == old(trailers)
    {
      var selectedDriver := Find(drivers, (d: DriverDoc) => d.id == driverId);
      form := form.(driver := driverId, truck := "", trailer := Text(""));
      if selectedDriver.None? {
        return;
      }
      var lic := selectedDriver.value.licenseNumber;
      var assignedTruck := Find(trucks, (t: TruckDoc) => t.assignedDriverId == lic);
      if assignedTruck.Some? {
        var t := assignedTruck.value;
        form := form.(truck := TruckName(t));
        var assignedTrailer := Find(trailers, (x: TrailerDoc) => x.assignedTruckNumber == t.truckNumber);
        if assignedTrailer.Some? {
          form := form.(trailer := TrailerRecord(assignedTrailer.value));
        }
      }
    }
  }
}
