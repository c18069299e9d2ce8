/** src/components/layouts/admin-layouts/Trips.tsx: the trip list of an admin, its tab
    and search filter, and the inline editor of a completed trip's end odometer. The
    Firestore trips collection is a map from document id to trip. */
module Trips {
  import opened Js

  datatype Trip = Trip(id: string, tripNumber: Option<string>, status: Option<string>,
                       driver: Option<string>, route: Option<string>,
                       startingMiles: Value, endingMiles: Value, totalTripDrivenMiles: Value)

  /** The tab values; a trip is listed under the tab equal to its lowercased status. */
  const Tabs: seq<string> := ["in progress", "scheduled", "completed", "cancelled"]

  // ---------------------------------------------------------------------------
  // Odometer arithmetic
  // ---------------------------------------------------------------------------

  /** `Number(trip.startingMiles || 0)` */
  function StartReading(t: Trip): (r: JsNumber)
    ensures t.startingMiles.Str? && t.startingMiles.s != "" ==> r == ParseNumber(t.startingMiles.s)
    ensures t.startingMiles.Num? ==> r == if t.startingMiles.n.NaN? then Int(0) else t.startingMiles.n
    ensures t.startingMiles in {Undefined, Null, Str("")} ==> r == Int(0)
  {
    ToNumber(Or(t.startingMiles, Num(Int(0))))
  }

  /** `Number(endMilesDraft || 0)` */
  function EndReading(draft: Value): (r: JsNumber)
    ensures draft.Str? && draft.s != "" ==> r == ParseNumber(draft.s)
    ensures draft.Num? ==> r == if draft.n.NaN? then Int(0) else draft.n
    ensures draft in {Undefined, Null, Str("")} ==> r == Int(0)
  {
    ToNumber(Or(draft, Num(Int(0))))
  }

  /** A missing start reading and an empty draft both read as 0. */
  lemma MissingReadingsAreZero(t: Trip)
    requires t.startingMiles == Undefined || t.startingMiles == Str("")
    ensures StartReading(t) == Int(0) && EndReading(Str("")) == Int(0)
  {
  }

  /** `a < b` on numbers: false whenever either is NaN. */
  predicate Less(a: JsNumber, b: JsNumber) {
    a.Int? && b.Int? && a.i < b.i
  }

  /** `a - b` on numbers. */
  function Minus(a: JsNumber, b: JsNumber): (r: JsNumber)
    ensures r.Int? <==> a.Int? && b.Int?
    ensures r.Int? ==> r.i + b.i == a.i
  {
    if a.Int? && b.Int? then Int(a.i - b.i) else NaN
  }

  /** The guard of `handleSaveOdometer` as written: the end reading must be a number
      and must not be below the start reading. A start reading that is not a number
      makes the comparison false, so the guard lets it through. */
  predicate AcceptedAsWritten(start: JsNumber, end: JsNumber) {
    !end.NaN? && !Less(end, start)
  }

  /** The written guard passes exactly a numeric end reading that is not below a
      numeric start, or any numeric end reading when the start is NaN. */
  lemma AcceptedAsWrittenSpec(start: JsNumber, end: JsNumber)
    ensures AcceptedAsWritten(start, end) <==> end.Int? && (start.NaN? || start.i <= end.i)
    ensures start.NaN? && end.Int? ==> AcceptedAsWritten(start, end)
  {
  }

  /** `Number("150,000")` is NaN: the separator is not part of a number. */
  lemma SeparatorIsNaN()
    ensures ParseNumber("150,000") == NaN
  {
    var s := "150,000";
    TrimOfUnspaced(s);
    assert s[3] == ',';
    assert !AllDigits(s);
    assert !AllDigits(s[1..]) by { assert s[1..][2] == ','; }
  }

  lemma ReadingOf150500()
    ensures ParseNumber("150500") == Int(150500)
  {
    assert AllDigits("150500");
    assert "150500"[..5] == "15050" && "15050"[..4] == "1505" && "1505"[..3] == "150";
    assert "150"[..2] == "15" && "15"[..1] == "1" && "1"[..0] == "";
  }

  /** A start odometer typed with a thousands separator is saved and the trip miles
      become NaN. */
  lemma AsWrittenStoresNaNMiles()
    ensures var t := Trip("t1", Some("FP-2026-3"), Some("Completed"), None, None,
                          Str("150,000"), Str(""), Str(""));
            StartReading(t) == NaN
            && EndReading(Str("150500")) == Int(150500)
            && AcceptedAsWritten(StartReading(t), EndReading(Str("150500")))
            && Minus(EndReading(Str("150500")), StartReading(t)) == NaN
  {
    SeparatorIsNaN();
    ReadingOf150500();
  }

  /** The guard as intended: both readings are numbers and the end is not below the
      start. */
  predicate Accepted(start: JsNumber, end: JsNumber) {
    start.Int? && end.Int? && end.i >= start.i
  }

  /** The two guards agree whenever the start reading is a number; an accepted save
      always yields a non-negative whole number of trip miles, 0 for equal readings. */
  lemma AcceptedSpec(start: JsNumber, end: JsNumber)
    ensures start.Int? ==> (Accepted(start, end) <==> AcceptedAsWritten(start, end))
    ensures Accepted(start, end) ==> Minus(end, start).Int? && Minus(end, start).i >= 0
    ensures start.Int? && end == start ==> Accepted(start, end) && Minus(end, start) == Int(0)
    ensures Accepted(start, end) ==> AcceptedAsWritten(start, end)
  {
  }

  /** The two fields an accepted save writes, to the record and to the list. */
  function WithOdometer(t: Trip, end: int, total: JsNumber): (r: Trip)
    ensures r.endingMiles == Num(Int(end)) && r.totalTripDrivenMiles == Num(total)
    ensures r.(endingMiles := t.endingMiles, totalTripDrivenMiles := t.totalTripDrivenMiles) == t
  {
    t.(endingMiles := Num(Int(end)), totalTripDrivenMiles := Num(total))
  }

  /** `prev.map(t => t.id === id ? {...t, endingMiles, totalTripDrivenMiles} : t)` */
  function UpdatedList(trips: seq<Trip>, id: string, end: int, total: JsNumber): (r: seq<Trip>)
    ensures |r| == |trips|
    ensures forall i :: 0 <= i < |trips| && trips[i].id != id ==> r[i] == trips[i]
    ensures forall i :: 0 <= i < |trips| && trips[i].id == id ==> r[i] == WithOdometer(trips[i], end, total)
  {
    seq(|trips|, i requires 0 <= i < |trips| =>
      if trips[i].id == id then WithOdometer(trips[i], end, total) else trips[i])
  }

  /** Only the trip with the saved id is touched, its id stays, so the update keeps
      the ids of the list in place and updating twice is the same as once. */
  lemma UpdatedListKeepsIds(trips: seq<Trip>, id: string, end: int, total: JsNumber)
    ensures forall i :: 0 <= i < |trips| ==> UpdatedList(trips, id, end, total)[i].id == trips[i].id
    ensures UpdatedList(UpdatedList(trips, id, end, total), id, end, total)
            == UpdatedList(trips, id, end, total)
  {
  }

  // ---------------------------------------------------------------------------
  // The filter
  // ---------------------------------------------------------------------------

  /** The predicate of `filteredTrips`. */
  predicate TripShown(t: Trip, tab: string, search: string) {
    t.status.Some? && ToLower(t.status.value) == tab
    && (FieldMatches(t.tripNumber, search) || FieldMatches(t.driver, search)
        || FieldMatches(t.route, search))
  }

  function FilteredTrips(trips: seq<Trip>, tab: string, search: string): (r: seq<Trip>)
    ensures forall i :: 0 <= i < |r| ==> r[i] in trips && TripShown(r[i], tab, search)
    ensures forall i :: 0 <= i < |trips| && TripShown(trips[i], tab, search) ==> trips[i] in r
  {
    Filter(trips, (t: Trip) => TripShown(t, tab, search))
  }

  /** The shown trips keep the order of the list, and the case of the search text
      does not matter. */
  lemma FilteredTripsSpec(trips: seq<Trip>, tab: string, search: string)
    ensures SubsequenceOf(FilteredTrips(trips, tab, search), trips)
    ensures FilteredTrips(trips, tab, ToLower(search)) == FilteredTrips(trips, tab, search)
  {
    FilterIsSubsequence(trips, (t: Trip) => TripShown(t, tab, search));
    forall i | 0 <= i < |trips|
      ensures TripShown(trips[i], tab, ToLower(search)) == TripShown(trips[i], tab, search)
    {
      FieldMatchesCaseBlind(trips[i].tripNumber, search);
      FieldMatchesCaseBlind(trips[i].driver, search);
      FieldMatchesCaseBlind(trips[i].route, search);
    }
    FilterCongruent(trips, (t: Trip) => TripShown(t, tab, ToLower(search)),
                    (t: Trip) => TripShown(t, tab, search));
  }

  /** A trip lacking a status, or lacking all three searched fields, is never shown;
      a status written in capitals ("Completed") is listed under its lowercase tab. */
  lemma TripShownCases(t: Trip, tab: string, search: string)
    ensures t.status.None? ==> !TripShown(t, tab, search)
    ensures t.tripNumber.None? && t.driver.None? && t.route.None? ==> !TripShown(t, tab, search)
    ensures t.status == Some("Completed") && t.tripNumber.Some? && search == ""
            ==> TripShown(t, "completed", search)
  {
    if t.status == Some("Completed") && t.tripNumber.Some? && search == "" {
      assert OccursAt(ToLower(t.tripNumber.value), ToLower(search), 0);
    }
  }

  // ---------------------------------------------------------------------------
  // The page
  // ---------------------------------------------------------------------------

  datatype SaveOutcome = Rejected | WriteFailed | Saved(totalMiles: JsNumber)

  class TripsPage {
    var store: map<string, Trip>
    var trips: seq<Trip>
    var editingTripId: Option<string>
    var endMilesDraft: Value

    constructor (store: map<string, Trip>, trips: seq<Trip>)
      ensures this.store == store && this.trips == trips
      ensures editingTripId == None && endMilesDraft == Str("")
    {
      this.store := store;
      this.trips := trips;
      editingTripId := None;
      endMilesDraft := Str("");
    }

    /** `handleStartEditing`: the draft starts from the trip's end reading, or "". */
    method StartEditing(trip: Trip)
      modifies this
      ensures editingTripId == Some(trip.id)
      ensures endMilesDraft == Or(trip.endingMiles, Str(""))
      ensures store == old(store) && trips == old(trips)
    {
      editingTripId := Some(trip.id);
      endMilesDraft := Or(trip.endingMiles, Str(""));
    }

    /** The odometer input's `onChange`: the draft becomes the typed text. */
    method SetDraft(v: string)
      modifies this
      ensures endMilesDraft == Str(v)
      ensures editingTripId == old(editingTripId) && store == old(store) && trips == old(trips)
    {
      endMilesDraft := Str(v);
    }

    /** `handleCancelEditing` */
    method CancelEditing()
      modifies this
      ensures editingTripId == None && endMilesDraft == Str("")
      ensures store == old(store) && trips == old(trips)
    {
      editingTripId := None;
      endMilesDraft := Str("");
    }

    /** `handleSaveOdometer`. The record write succeeds iff `writeOk` and the record
        exists; a failed write changes nothing, like a rejected reading. A start
        reading that is not a number passes the guard, and the trip miles written
        are then NaN. */
    method SaveOdometer(trip: Trip, writeOk: bool) returns (outcome: SaveOutcome)
      modifies this
      ensures var start, end := StartReading(trip), EndReading(old(endMilesDraft));
              outcome == Rejected <==> !AcceptedAsWritten(start, end)
      ensures outcome.Rejected? || outcome.WriteFailed? ==>
              store == old(store) && trips == old(trips)
              && editingTripId == old(editingTripId) && endMilesDraft == old(endMilesDraft)
      ensures outcome.Saved? ==>
              var start, end := StartReading(trip), EndReading(old(endMilesDraft));
              AcceptedAsWritten(start, end) && writeOk && trip.id in old(store)
              && outcome.totalMiles == Minus(end, start)
              && store == old(store)[trip.id := WithOdometer(old(store)[trip.id], end.i, outcome.totalMiles)]
              && trips == UpdatedList(old(trips), trip.id, end.i, outcome.totalMiles)
              && editingTripId == None && endMilesDraft == Str("")
      ensures outcome.Saved? && StartReading(trip).Int? ==>
              outcome.totalMiles.Int? && outcome.totalMiles.i >= 0
      ensures (AcceptedAsWritten(StartReading(trip), EndReading(old(endMilesDraft))) && writeOk
               && trip.id in old(store)) ==> outcome.Saved?
    {
      var startMiles := ToNumber(Or(trip.startingMiles, Num(Int(0))));
      var endMiles := ToNumber(Or(endMilesDraft, Num(Int(0))));
      if endMiles.NaN? || Less(endMiles, startMiles) {
        return Rejected;
      }
      var totalMiles := Minus(endMiles, startMiles);
      if !writeOk || trip.id !in store {
        return WriteFailed;
      }
      store := store[trip.id := WithOdometer(store[trip.id], endMiles.i, totalMiles)];
      trips := UpdatedList(trips, trip.id, endMiles.i, totalMiles);
      editingTripId := None;
      endMilesDraft := Str("");
      outcome := Saved(totalMiles);
    }
  }
}
