/** src/components/layouts/admin-layouts/Drivers.tsx: the driver list of an admin.
    The search keeps the drivers whose full name or licence number contains the
    search text, ignoring case, and each card shows a status chip. */
module Drivers {
  import opened Js

  /** A driver as listed: the fields the page reads, each possibly missing. */
  datatype Driver = Driver(id: string, fullName: Option<string>, licenseNumber: Option<string>,
                           status: Option<string>)

  /** The predicate of `filteredDrivers`. */
  predicate DriverShown(d: Driver, search: string) {
    FieldMatches(d.fullName, search) || FieldMatches(d.licenseNumber, search)
  }

  function FilteredDrivers(drivers: seq<Driver>, search: string): (r: seq<Driver>)
    ensures forall i :: 0 <= i < |r| ==> r[i] in drivers && DriverShown(r[i], search)
    ensures forall i :: 0 <= i < |drivers| && DriverShown(drivers[i], search) ==> drivers[i] in r
  {
    Filter(drivers, (d: Driver) => DriverShown(d, search))
  }

  /** The shown drivers keep the order of the list, and the case of the search text
      does not matter. */
  lemma FilteredDriversSpec(drivers: seq<Driver>, search: string)
    ensures SubsequenceOf(FilteredDrivers(drivers, search), drivers)
    ensures FilteredDrivers(drivers, ToLower(search)) == FilteredDrivers(drivers, search)
  {
    FilterIsSubsequence(drivers, (d: Driver) => DriverShown(d, search));
    forall i | 0 <= i < |drivers|
      ensures DriverShown(drivers[i], ToLower(search)) == DriverShown(drivers[i], search)
    {
      FieldMatchesCaseBlind(drivers[i].fullName, search);
      FieldMatchesCaseBlind(drivers[i].licenseNumber, search);
    }
    FilterCongruent(drivers, (d: Driver) => DriverShown(d, ToLower(search)),
                    (d: Driver) => DriverShown(d, search));
  }

  /** A driver with neither field is never shown, not even for an empty search; one
      with a licence number is shown for an empty search. */
  lemma DriverShownCases(d: Driver, search: string)
    ensures d.fullName.None? && d.licenseNumber.None? ==> !DriverShown(d, search)
    ensures d.licenseNumber.Some? && search == "" ==> DriverShown(d, search)
  {
    if d.licenseNumber.Some? && search == "" {
      assert OccursAt(ToLower(d.licenseNumber.value), ToLower(search), 0);
    }
  }

  datatype Color = Success | Info | Default

  /** The chip colour: the exact statuses "Active" and "On Trip", case-sensitively. */
  function ChipColor(status: Option<string>): (c: Color)
    ensures c == Success <==> status == Some("Active")
    ensures c == Info <==> status == Some("On Trip")
  {
    if status == Some("Active") then Success
    else if status == Some("On Trip") then Info
    else Default
  }

  /** The comparison is case-sensitive: "active" gets the default colour. */
  lemma ChipColorCaseSensitive()
    ensures ChipColor(Some("active")) == Default && ChipColor(Some("on trip")) == Default
    ensures ChipColor(None) == Default
  {
  }
}
