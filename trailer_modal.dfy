/** src/components/modals/TrailerModal.tsx: the add/edit trailer dialog. The edited
    record is laid over the current form, every input replaces one field, `validate`
    checks the required fields, the year and the three dates, and a valid form is
    saved to the trailers collection. `clock` is the current local day and the local
    zone's offset from UTC. */
module TrailerModal {
  import opened Js
  import opened Forms
  import opened DateValidators

  datatype TrailerForm = TrailerForm(
    make: string, model: string, year: string, trailerNumber: string, trailerType: string,
    plateNumber: string, vin: string, length: string, capacity: string,
    operatingHours: string, status: string, lastMaintenance: string,
    lastInspection: string, insuranceExpiry: string, assignedTruck: string)

  /** The form of a new trailer. */
  const Blank := TrailerForm("", "", "", "", "", "", "", "", "", "", "Available", "", "", "", "")

  /** The inputs, by their `name` attribute: one per field of the form. */
  datatype Field = Make | Model | Year | TrailerNumber | TrailerType | PlateNumber | Vin
                 | Length | Capacity | OperatingHours | Status | LastMaintenance
                 | LastInspection | InsuranceExpiry | AssignedTruck

  /** The document key of each field. */
  function Name(n: Field): string {
    match n
    case Make => "make"
    case Model => "model"
    case Year => "year"
    case TrailerNumber => "trailerNumber"
    case TrailerType => "trailerType"
    case PlateNumber => "plateNumber"
    case Vin => "vin"
    case Length => "length"
    case Capacity => "capacity"
    case OperatingHours => "operatingHours"
    case Status => "status"
    case LastMaintenance => "lastMaintenance"
    case LastInspection => "lastInspection"
    case InsuranceExpiry => "insuranceExpiry"
    case AssignedTruck => "assignedTruck"
  }

  /** `form[name]` */
  function Value(f: TrailerForm, n: Field): string {
    match n
    case Make => f.make
    case Model => f.model
    case Year => f.year
    case TrailerNumber => f.trailerNumber
    case TrailerType => f.trailerType
    case PlateNumber => f.plateNumber
    case Vin => f.vin
    case Length => f.length
    case Capacity => f.capacity
    case OperatingHours => f.operatingHours
    case Status => f.status
    case LastMaintenance => f.lastMaintenance
    case LastInspection => f.lastInspection
    case InsuranceExpiry => f.insuranceExpiry
    case AssignedTruck => f.assignedTruck
  }

  /** `{ ...form, [name]: value }` */
  function Changed(f: TrailerForm, n: Field, v: string): (r: TrailerForm)
    ensures Value(r, n) == v
  {
    match n
    case Make => f.(make := v)
    case Model => f.(model := v)
    case Year => f.(year := v)
    case TrailerNumber => f.(trailerNumber := v)
    case TrailerType => f.(trailerType := v)
    case PlateNumber => f.(plateNumber := v)
    case Vin => f.(vin := v)
    case Length => f.(length := v)
    case Capacity => f.(capacity := v)
    case OperatingHours => f.(operatingHours := v)
    case Status => f.(status := v)
    case LastMaintenance => f.(lastMaintenance := v)
    case LastInspection => f.(lastInspection := v)
    case InsuranceExpiry => f.(insuranceExpiry := v)
    case AssignedTruck => f.(assignedTruck := v)
  }

  /** An input changes its own field and no other. */
  lemma ChangedSpec(f: TrailerForm, n: Field, v: string, m: Field)
    ensures Value(Changed(f, n, v), m) == if m == n then v else Value(f, m)
  {
    match n
    case Make =>
    case Model =>
    case Year =>
    case TrailerNumber =>
    case TrailerType =>
    case PlateNumber =>
    case Vin =>
    case Length =>
    case Capacity =>
    case OperatingHours =>
    case Status =>
    case LastMaintenance =>
    case LastInspection =>
    case InsuranceExpiry =>
    case AssignedTruck =>
  }

  /** `{ ...form, ...trailerData }` on the fields of the form. */
  function Overlay(f: TrailerForm, data: Doc): TrailerForm {
    TrailerForm(
      SpreadOver(data, "make", f.make), SpreadOver(data, "model", f.model),
      SpreadOver(data, "year", f.year), SpreadOver(data, "trailerNumber", f.trailerNumber),
      SpreadOver(data, "trailerType", f.trailerType),
      SpreadOver(data, "plateNumber", f.plateNumber), SpreadOver(data, "vin", f.vin),
      SpreadOver(data, "length", f.length), SpreadOver(data, "capacity", f.capacity),
      SpreadOver(data, "operatingHours", f.operatingHours),
      SpreadOver(data, "status", f.status),
      SpreadOver(data, "lastMaintenance", f.lastMaintenance),
      SpreadOver(data, "lastInspection", f.lastInspection),
      SpreadOver(data, "insuranceExpiry", f.insuranceExpiry),
      SpreadOver(data, "assignedTruck", f.assignedTruck))
  }

  /** The record's fields win, even empty ones, and a field the record lacks keeps
      whatever the form held before, so an edit can inherit values from the form that
      was open before it. */
  lemma OverlaySpec(f: TrailerForm, data: Doc, n: Field)
    ensures Value(Overlay(f, data), n) == if Name(n) in data then data[Name(n)] else Value(f, n)
  {
    match n
    case Make =>
    case Model =>
    case Year =>
    case TrailerNumber =>
    case TrailerType =>
    case PlateNumber =>
    case Vin =>
    case Length =>
    case Capacity =>
    case OperatingHours =>
    case Status =>
    case LastMaintenance =>
    case LastInspection =>
    case InsuranceExpiry =>
    case AssignedTruck =>
  }

  /** The fields `updateDoc` and `addDoc` write: `{ ...form }`. */
  function AsDoc(f: TrailerForm): Doc {
    map[
      "make" := f.make, "model" := f.model, "year" := f.year,
      "trailerNumber" := f.trailerNumber, "trailerType" := f.trailerType,
      "plateNumber" := f.plateNumber, "vin" := f.vin, "length" := f.length,
      "capacity" := f.capacity, "operatingHours" := f.operatingHours, "status" := f.status,
      "lastMaintenance" := f.lastMaintenance, "lastInspection" := f.lastInspection,
      "insuranceExpiry" := f.insuranceExpiry, "assignedTruck" := f.assignedTruck]
  }

  /** Reopening a saved trailer shows exactly the form that was saved, whatever form
      was open before. */
  lemma OverlayAsDoc(before: TrailerForm, f: TrailerForm)
    ensures Overlay(before, AsDoc(f)) == f
  {
  }

  /** `!form.year.trim() || !/^\d{4}$/.test(form.year)` */
  predicate YearRejected(y: string) {
    IsBlank(y) || !FourDigits(y)
  }

  /** A date field is checked only when it is filled in, by the checks of
      src/utils/dateValidators.ts as they are written. */
  predicate PastDateOk(s: string, clock: Clock) {
    s == "" || IsPastOrTodayAsWritten(s, clock.today, clock.offsetMinutes)
  }

  predicate FutureDateOk(s: string, clock: Clock) {
    s == "" || IsFutureOrTodayAsWritten(s, clock.today, clock.offsetMinutes)
  }

  /** The keys `validate` writes into its error object. */
  datatype ErrorKey = MakeKey | ModelKey | YearKey | TrailerNumberKey | TrailerTypeKey
                    | PlateNumberKey | LengthKey | CapacityKey | LastMaintenanceKey
                    | LastInspectionKey | InsuranceExpiryKey

  /** The messages of the failed checks. */
  const MakeRequired := "Make is required"
  const ModelRequired := "Model is required"
  const YearInvalid := "Valid year required"
  const TrailerNumberRequired := "Trailer number is required"
  const TrailerTypeRequired := "Trailer type is required"
  const PlateNumberRequired := "Plate number is required"
  const LengthRequired := "Length is required"
  const CapacityRequired := "Capacity is required"
  const LastMaintenanceNotPast := "Last maintenance must be today or a past date"
  const LastInspectionNotPast := "Last inspection must be today or a past date"
  const InsuranceExpiryNotFuture := "Insurance expiry must be today or a future date"

  /** The errors `validate` records, in insertion order. */
  function TrailerErrors(f: TrailerForm, clock: Clock): Errors<ErrorKey> {
    NoErrors()
      .PutIf(IsBlank(f.make), MakeKey, MakeRequired)
      .PutIf(IsBlank(f.model), ModelKey, ModelRequired)
      .PutIf(YearRejected(f.year), YearKey, YearInvalid)
      .PutIf(IsBlank(f.trailerNumber), TrailerNumberKey, TrailerNumberRequired)
      .PutIf(IsBlank(f.trailerType), TrailerTypeKey, TrailerTypeRequired)
      .PutIf(IsBlank(f.plateNumber), PlateNumberKey, PlateNumberRequired)
      .PutIf(IsBlank(f.length), LengthKey, LengthRequired)
      .PutIf(IsBlank(f.capacity), CapacityKey, CapacityRequired)
      .PutIf(!PastDateOk(f.lastMaintenance, clock), LastMaintenanceKey, LastMaintenanceNotPast)
      .PutIf(!PastDateOk(f.lastInspection, clock), LastInspectionKey, LastInspectionNotPast)
      .PutIf(!FutureDateOk(f.insuranceExpiry, clock), InsuranceExpiryKey, InsuranceExpiryNotFuture)
  }

  predicate TrailerValid(f: TrailerForm, clock: Clock) {
    !IsBlank(f.make) && !IsBlank(f.model) && FourDigits(f.year)
    && !IsBlank(f.trailerNumber) && !IsBlank(f.trailerType) && !IsBlank(f.plateNumber)
    && !IsBlank(f.length) && !IsBlank(f.capacity)
    && PastDateOk(f.lastMaintenance, clock) && PastDateOk(f.lastInspection, clock)
    && FutureDateOk(f.insuranceExpiry, clock)
  }

  /** `validate` answers true exactly when every check passes. */
  lemma TrailerErrorsEmptyIff(f: TrailerForm, clock: Clock)
    ensures TrailerErrors(f, clock).Empty() <==> TrailerValid(f, clock)
  {
    FourDigitsNotBlank(f.year);
  }

  /** Make, model and year each carry their own message when their check fails, and
      no error otherwise; the year's error covers both a blank and a malformed year. */
  lemma TrailerIdentityMessages(f: TrailerForm, clock: Clock)
    ensures TrailerErrors(f, clock).Lookup(MakeKey) == if IsBlank(f.make) then Some(MakeRequired) else None
    ensures TrailerErrors(f, clock).Lookup(ModelKey) == if IsBlank(f.model) then Some(ModelRequired) else None
    ensures TrailerErrors(f, clock).Lookup(YearKey) == if FourDigits(f.year) then None else Some(YearInvalid)
  {
    FourDigitsNotBlank(f.year);
  }

  /** Trailer number, trailer type and plate number are reported iff blank. */
  lemma TrailerRegistrationMessages(f: TrailerForm, clock: Clock)
    ensures TrailerErrors(f, clock).Lookup(TrailerNumberKey)
            == if IsBlank(f.trailerNumber) then Some(TrailerNumberRequired) else None
    ensures TrailerErrors(f, clock).Lookup(TrailerTypeKey)
            == if IsBlank(f.trailerType) then Some(TrailerTypeRequired) else None
    ensures TrailerErrors(f, clock).Lookup(PlateNumberKey)
            == if IsBlank(f.plateNumber) then Some(PlateNumberRequired) else None
  {
  }

  /** Length and capacity are reported iff blank. */
  lemma TrailerSizeMessages(f: TrailerForm, clock: Clock)
    ensures TrailerErrors(f, clock).Lookup(LengthKey) == if IsBlank(f.length) then Some(LengthRequired) else None
    ensures TrailerErrors(f, clock).Lookup(CapacityKey) == if IsBlank(f.capacity) then Some(CapacityRequired) else None
  {
  }

  /** A date is reported only when it is filled in and the written check, which
      truncates in the local zone, puts it on the wrong side of today:
      maintenance and inspection lie in the past, the insurance expiry in the future. */
  lemma TrailerDateMessages(f: TrailerForm, clock: Clock)
    ensures TrailerErrors(f, clock).Lookup(LastMaintenanceKey)
            == if f.lastMaintenance != "" && !IsPastOrTodayAsWritten(f.lastMaintenance, clock.today, clock.offsetMinutes)
               then Some(LastMaintenanceNotPast) else None
    ensures TrailerErrors(f, clock).Lookup(LastInspectionKey)
            == if f.lastInspection != "" && !IsPastOrTodayAsWritten(f.lastInspection, clock.today, clock.offsetMinutes)
               then Some(LastInspectionNotPast) else None
    ensures TrailerErrors(f, clock).Lookup(InsuranceExpiryKey)
            == if f.insuranceExpiry != "" && !IsFutureOrTodayAsWritten(f.insuranceExpiry, clock.today, clock.offsetMinutes)
               then Some(InsuranceExpiryNotFuture) else None
  {
  }

  /** At UTC or east of it the written date checks judge the calendar day typed:
      a filled-in date passes exactly when that day lies on its side of today. */
  lemma TrailerDatesEastOfUtc(s: string, clock: Clock)
    requires 0 <= clock.offsetMinutes < 1440
    ensures PastDateOk(s, clock) <==> s == "" || IsPastOrToday(s, clock.today)
    ensures FutureDateOk(s, clock) <==> s == "" || IsFutureOrToday(s, clock.today)
  {
    IntendedMatchesAsWrittenEastOfUtc(s, clock.today, clock.offsetMinutes);
  }

  /** West of UTC an insurance expiry of today is refused, so the trailer cannot be
      saved that day. */
  lemma ExpiryTodayRejectedWestOfUtc(f: TrailerForm, clock: Clock)
    requires ParseIsoDate(f.insuranceExpiry) == Some(clock.today)
    requires -1440 < clock.offsetMinutes < 0
    ensures TrailerErrors(f, clock).Lookup(InsuranceExpiryKey) == Some(InsuranceExpiryNotFuture)
    ensures !TrailerValid(f, clock)
  {
    TodayRejectedWestOfUtc(f.insuranceExpiry, clock.today, clock.offsetMinutes);
    TrailerDateMessages(f, clock);
  }

  class Dialog {
    var trailerData: Option<Doc>
    var form: TrailerForm
    var errors: Errors<ErrorKey>
    var store: map<string, Doc>

    constructor (store: map<string, Doc>)
      ensures form == Blank && errors == NoErrors() && trailerData == None
      ensures this.store == store
    {
      trailerData := None;
      form := Blank;
      errors := NoErrors();
      this.store := store;
    }

    /** Opening the dialog: an edited record is laid over the current form, a new
        trailer resets the form to the defaults. The errors are left as they were. */
    method Open(data: Option<Doc>)
      modifies this
      ensures trailerData == data
      ensures form == if data.Some? then Overlay(old(form), data.value) else Blank
      ensures errors == old(errors) && store == old(store)
    {
      trailerData := data;
      if data.Some? {
        form := Overlay(form, data.value);
      } else {
        form := Blank;
      }
    }

    /** `handleChange` for the input named `n`. */
    method HandleChange(n: Field, value: string)
      modifies this
      ensures form == Changed(old(form), n, value)
      ensures errors == old(errors) && store == old(store) && trailerData == old(trailerData)
    {
      form := Changed(form, n, value);
    }

    /** `validate`, run at `clock` */
    method Validate(clock: Clock) returns (ok: bool)
      modifies this
      ensures form == old(form) && store == old(store) && trailerData == old(trailerData)
      ensures errors == TrailerErrors(form, clock) && (ok <==> TrailerValid(form, clock))
    {
      var f := form;
      var newErrors: Errors<ErrorKey> := NoErrors();
      newErrors := newErrors.PutIf(IsBlank(f.make), MakeKey, MakeRequired);
      newErrors := newErrors.PutIf(IsBlank(f.model), ModelKey, ModelRequired);
      newErrors := newErrors.PutIf(YearRejected(f.year), YearKey, YearInvalid);
      newErrors := newErrors.PutIf(IsBlank(f.trailerNumber), TrailerNumberKey, TrailerNumberRequired);
      newErrors := newErrors.PutIf(IsBlank(f.trailerType), TrailerTypeKey, TrailerTypeRequired);
      newErrors := newErrors.PutIf(IsBlank(f.plateNumber), PlateNumberKey, PlateNumberRequired);
      newErrors := newErrors.PutIf(IsBlank(f.length), LengthKey, LengthRequired);
      newErrors := newErrors.PutIf(IsBlank(f.capacity), CapacityKey, CapacityRequired);
      newErrors := newErrors.PutIf(!PastDateOk(f.lastMaintenance, clock), LastMaintenanceKey, LastMaintenanceNotPast);
      newErrors := newErrors.PutIf(!PastDateOk(f.lastInspection, clock), LastInspectionKey, LastInspectionNotPast);
      newErrors := newErrors.PutIf(!FutureDateOk(f.insuranceExpiry, clock), InsuranceExpiryKey, InsuranceExpiryNotFuture);
      TrailerErrorsEmptyIff(f, clock);
      errors := newErrors;
      ok := newErrors.Empty();
    }

    /** `handleSave`, run at `clock`: nothing is written unless the form is valid; the
        write fails when `writeOk` is false or the edited record is gone. */
    method HandleSave(clock: Clock, writeOk: bool, newId: string) returns (saved: bool)
      requires newId !in store
      modifies this
      ensures form == old(form) && trailerData == old(trailerData)
      ensures errors == TrailerErrors(form, clock)
      ensures var id := EditId(trailerData);
              saved <==> TrailerValid(form, clock) && writeOk && (id.Some? ==> id.value in old(store))
      ensures saved ==> store == Written(old(store), EditId(trailerData), newId, AsDoc(form))
      ensures !saved ==> store == old(store)
    {
      var ok := Validate(clock);
      if !ok {
        return false;
      }
      var id := EditId(trailerData);
      if !writeOk || (id.Some? && id.value !in store) {
        return false;
      }
      store := Written(store, id, newId, AsDoc(form));
      saved := true;
    }
  }
}
