/** src/components/layouts/admin-layouts/Trucks.tsx: the fleet list of an admin. The
    search keeps the trucks whose make, model or plate number contains the search
    text, ignoring case, and each card shows a status chip. */
module Trucks {
  import opened Js

  /** A truck as listed: the fields the page reads, each possibly missing. */
  datatype Truck = Truck(id: string, make: Option<string>, model: Option<string>,
                         plateNumber: Option<string>, status: Option<string>)

  /** The predicate of `filteredTrucks`. */
  predicate TruckShown(t: Truck, search: string) {
    FieldMatches(t.make, search) || FieldMatches(t.model, search) || FieldMatches(t.plateNumber, search)
  }

  function FilteredTrucks(trucks: seq<Truck>, search: string): (r: seq<Truck>)
    ensures forall i :: 0 <= i < |r| ==> r[i] in trucks && TruckShown(r[i], search)
    ensures forall i :: 0 <= i < |trucks| && TruckShown(trucks[i], search) ==> trucks[i] in r
  {
    Filter(trucks, (t: Truck) => TruckShown(t, search))
  }

  /** The shown trucks keep the order of the list, and the case of the search text
      does not matter. */
  lemma FilteredTrucksSpec(trucks: seq<Truck>, search: string)
    ensures SubsequenceOf(FilteredTrucks(trucks, search), trucks)
    ensures FilteredTrucks(trucks, ToLower(search)) == FilteredTrucks(trucks, search)
  {
    FilterIsSubsequence(trucks, (t: Truck) => TruckShown(t, search));
    forall i | 0 <= i < |trucks|
      ensures TruckShown(trucks[i], ToLower(search)) == TruckShown(trucks[i], search)
    {
      FieldMatchesCaseBlind(trucks[i].make, search);
      FieldMatchesCaseBlind(trucks[i].model, search);
      FieldMatchesCaseBlind(trucks[i].plateNumber, search);
    }
    FilterCongruent(trucks, (t: Truck) => TruckShown(t, ToLower(search)),
                    (t: Truck) => TruckShown(t, search));
  }

  /** A truck with none of the three fields is never shown, not even for an empty
      search; one with a make is shown for an empty search. */
  lemma TruckShownCases(t: Truck, search: string)
    ensures t.make.None? && t.model.None? && t.plateNumber.None? ==> !TruckShown(t, search)
    ensures t.make.Some? && search == "" ==> TruckShown(t, search)
  {
    if t.make.Some? && search == "" {
      assert OccursAt(ToLower(t.make.value), ToLower(search), 0);
    }
  }

  datatype Color = Success | Warning | Info | Default

  /** `truck.status || "inactive"` */
  function ChipLabel(status: Option<string>): (text: string)
    ensures status.Some? && status.value != "" ==> text == status.value
    ensures status.None? || status.value == "" ==> text == "inactive"
  {
    OrString(status, "inactive")
  }

  /** The chip colour as written: lowercase statuses compared case-sensitively. */
  function ChipColorAsWritten(status: Option<string>): (c: Color)
    ensures c == Success <==> status == Some("active")
    ensures c == Warning <==> status == Some("maintenance")
    ensures c == Info <==> status == Some("on trip")
  {
    if status == Some("active") then Success
    else if status == Some("maintenance") then Warning
    else if status == Some("on trip") then Info
    else Default
  }

  /** The statuses the truck dialog offers. */
  const ModalStatuses: seq<string> := ["Active", "On Trip", "Maintenance"]

  /** None of the statuses the truck dialog saves gets a colour of its own. */
  lemma SavedStatusesUncoloured()
    ensures forall i :: 0 <= i < |ModalStatuses| ==> ChipColorAsWritten(Some(ModalStatuses[i])) == Default
  {
  }

  /** The chip colour with the comparison made on the lowercased status. */
  function ChipColor(status: Option<string>): (c: Color)
    ensures c == Success <==> status.Some? && ToLower(status.value) == "active"
    ensures c == Warning <==> status.Some? && ToLower(status.value) == "maintenance"
    ensures c == Info <==> status.Some? && ToLower(status.value) == "on trip"
  {
    if status.None? then Default else ChipColorAsWritten(Some(ToLower(status.value)))
  }

  /** With the lowercased comparison the three saved statuses get three different
      colours, and the lowercase statuses keep the colours they had. */
  lemma ChipColorSpec()
    ensures ChipColor(Some("Active")) == Success
    ensures ChipColor(Some("Maintenance")) == Warning
    ensures ChipColor(Some("On Trip")) == Info
    ensures forall s :: s in ["active", "maintenance", "on trip"] ==> ChipColor(Some(s)) == ChipColorAsWritten(Some(s))
  {
    assert ToLower("Active") == "active";
    assert ToLower("Maintenance") == "maintenance";
    assert ToLower("On Trip") == "on trip";
    assert ToLower("active") == "active";
    assert ToLower("maintenance") == "maintenance";
    assert ToLower("on trip") == "on trip";
  }
}
