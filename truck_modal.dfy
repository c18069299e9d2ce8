/** src/components/modals/TruckModal.tsx: the add/edit truck dialog. Its form is
    prefilled from the edited truck, every input replaces one field, `validate` checks
    make, model, year and plate number, and a valid form is saved to the trucks
    collection. */
module TruckModal {
  import opened Js
  import opened Forms

  datatype TruckForm = TruckForm(
    make: string, model: string, year: string, plateNumber: string, vin: string,
    color: string, mileage: string, fuelType: string, status: string,
    lastService: string, insuranceExpiry: string, assignedDriver: string)

  /** The form of a new truck. */
  const Blank := TruckForm("", "", "", "", "", "", "", "Diesel", "Active", "", "", "")

  /** The inputs, by their `name` attribute: one per field of the form. */
  datatype Field = Make | Model | Year | PlateNumber | Vin | Color | Mileage | FuelType
                 | Status | LastService | InsuranceExpiry | AssignedDriver

  /** The document key of each field. */
  function Name(n: Field): string {
    match n
    case Make => "make"
    case Model => "model"
    case Year => "year"
    case PlateNumber => "plateNumber"
    case Vin => "vin"
    case Color => "color"
    case Mileage => "mileage"
    case FuelType => "fuelType"
    case Status => "status"
    case LastService => "lastService"
    case InsuranceExpiry => "insuranceExpiry"
    case AssignedDriver => "assignedDriver"
  }

  /** `form[name]` */
  function Value(f: TruckForm, n: Field): string {
    match n
    case Make => f.make
    case Model => f.model
    case Year => f.year
    case PlateNumber => f.plateNumber
    case Vin => f.vin
    case Color => f.color
    case Mileage => f.mileage
    case FuelType => f.fuelType
    case Status => f.status
    case LastService => f.lastService
    case InsuranceExpiry => f.insuranceExpiry
    case AssignedDriver => f.assignedDriver
  }

  /** `{ ...form, [name]: value }` */
  function Changed(f: TruckForm, n: Field, v: string): (r: TruckForm)
    ensures Value(r, n) == v
  {
    match n
    case Make => f.(make := v)
    case Model => f.(model := v)
    case Year => f.(year := v)
    case PlateNumber => f.(plateNumber := v)
    case Vin => f.(vin := v)
    case Color => f.(color := v)
    case Mileage => f.(mileage := v)
    case FuelType => f.(fuelType := v)
    case Status => f.(status := v)
    case LastService => f.(lastService := v)
    case InsuranceExpiry => f.(insuranceExpiry := v)
    case AssignedDriver => f.(assignedDriver := v)
  }

  /** An input changes its own field and no other. */
  lemma ChangedSpec(f: TruckForm, n: Field, v: string, m: Field)
    ensures Value(Changed(f, n, v), m) == if m == n then v else Value(f, m)
  {
    match n
    case Make =>
    case Model =>
    case Year =>
    case PlateNumber =>
    case Vin =>
    case Color =>
    case Mileage =>
    case FuelType =>
    case Status =>
    case LastService =>
    case InsuranceExpiry =>
    case AssignedDriver =>
  }

  /** The form an edit opens on: `truckData.f || default` for every field. */
  function Prefill(doc: Doc): TruckForm {
    TruckForm(
      FieldOr(doc, "make", ""), FieldOr(doc, "model", ""), FieldOr(doc, "year", ""),
      FieldOr(doc, "plateNumber", ""), FieldOr(doc, "vin", ""), FieldOr(doc, "color", ""),
      FieldOr(doc, "mileage", ""), FieldOr(doc, "fuelType", "Diesel"),
      FieldOr(doc, "status", "Active"), FieldOr(doc, "lastService", ""),
      FieldOr(doc, "insuranceExpiry", ""), FieldOr(doc, "assignedDriver", ""))
  }

  /** Every field takes the record's value when that is non-empty and the new-truck
      default otherwise ("Diesel" and "Active" for fuel type and status, "" for the
      rest). */
  lemma PrefillSpec(doc: Doc, n: Field)
    ensures Value(Prefill(doc), n)
            == if Name(n) in doc && doc[Name(n)] != "" then doc[Name(n)] else Value(Blank, n)
  {
    match n
    case Make =>
    case Model =>
    case Year =>
    case PlateNumber =>
    case Vin =>
    case Color =>
    case Mileage =>
    case FuelType =>
    case Status =>
    case LastService =>
    case InsuranceExpiry =>
    case AssignedDriver =>
  }

  /** The fields `updateDoc` and `addDoc` write: `{ ...form }`. */
  function AsDoc(f: TruckForm): Doc {
    map[
      "make" := f.make, "model" := f.model, "year" := f.year, "plateNumber" := f.plateNumber,
      "vin" := f.vin, "color" := f.color, "mileage" := f.mileage, "fuelType" := f.fuelType,
      "status" := f.status, "lastService" := f.lastService,
      "insuranceExpiry" := f.insuranceExpiry, "assignedDriver" := f.assignedDriver]
  }

  /** Reopening a saved truck shows the form that was saved, unless its fuel type or
      status was cleared, which come back as their defaults. */
  lemma PrefillAsDoc(f: TruckForm)
    ensures Prefill(AsDoc(f)) == f <==> f.fuelType != "" && f.status != ""
  {
    var d := AsDoc(f);
    assert d["fuelType"] == f.fuelType && d["status"] == f.status;
  }

  /** The keys `validate` writes into its error object. */
  datatype ErrorKey = MakeKey | ModelKey | YearKey | PlateNumberKey

  const MakeRequired := "Make is required"
  const ModelRequired := "Model is required"
  const YearRequired := "Year is required"
  const YearFormat := "Year must be a 4-digit number"
  const PlateNumberRequired := "Plate number is required"

  /** The error, if any, recorded for the year: its absence and its format are
      reported with different messages, never both. */
  function YearError(year: string): (r: Option<string>)
    ensures r == None <==> FourDigits(year)
    ensures r == Some(YearRequired) <==> IsBlank(year)
    ensures r == Some(YearFormat) <==> !IsBlank(year) && !FourDigits(year)
  {
    FourDigitsNotBlank(year);
    if IsBlank(year) then Some(YearRequired)
    else if !FourDigits(year) then Some(YearFormat)
    else None
  }

  /** The `else if` branch of the year check: filled in, but not four digits. */
  predicate YearMalformed(y: string) {
    !IsBlank(y) && !FourDigits(y)
  }

  /** The errors `validate` records, in insertion order. */
  function TruckErrors(f: TruckForm): Errors<ErrorKey> {
    NoErrors()
      .PutIf(IsBlank(f.make), MakeKey, MakeRequired)
      .PutIf(IsBlank(f.model), ModelKey, ModelRequired)
      .PutIf(IsBlank(f.year), YearKey, YearRequired)
      .PutIf(YearMalformed(f.year), YearKey, YearFormat)
      .PutIf(IsBlank(f.plateNumber), PlateNumberKey, PlateNumberRequired)
  }

  predicate TruckValid(f: TruckForm) {
    !IsBlank(f.make) && !IsBlank(f.model) && FourDigits(f.year) && !IsBlank(f.plateNumber)
  }

  /** `validate` answers true exactly when make, model and plate number are filled in
      and the year is four digits. */
  lemma TruckErrorsEmptyIff(f: TruckForm)
    ensures TruckErrors(f).Empty() <==> TruckValid(f)
  {
    FourDigitsNotBlank(f.year);
  }

  /** Each checked field carries its own message, or none when it passes. */
  lemma TruckErrorMessages(f: TruckForm)
    ensures TruckErrors(f).Lookup(YearKey) == YearError(f.year)
    ensures TruckErrors(f).Lookup(MakeKey) == if IsBlank(f.make) then Some(MakeRequired) else None
    ensures TruckErrors(f).Lookup(ModelKey) == if IsBlank(f.model) then Some(ModelRequired) else None
    ensures TruckErrors(f).Lookup(PlateNumberKey)
            == if IsBlank(f.plateNumber) then Some(PlateNumberRequired) else None
  {
    FourDigitsNotBlank(f.year);
  }

  class Dialog {
    var truckData: Option<Doc>
    var form: TruckForm
    var errors: Errors<ErrorKey>
    var store: map<string, Doc>

    constructor (store: map<string, Doc>)
      ensures form == Blank && errors == NoErrors() && truckData == None
      ensures this.store == store
    {
      truckData := None;
      form := Blank;
      errors := NoErrors();
      this.store := store;
    }

    /** Opening the dialog, on `data` to edit or on a new truck. A new truck also
        clears the errors; an edit keeps them. */
    method Open(data: Option<Doc>)
      modifies this
      ensures truckData == data
      ensures form == if data.Some? then Prefill(data.value) else Blank
      ensures errors == if data.Some? then old(errors) else NoErrors()
      ensures store == old(store)
    {
      truckData := data;
      if data.Some? {
        form := Prefill(data.value);
      } else {
        form := Blank;
        errors := NoErrors();
      }
    }

    /** `handleChange` for the input named `n`. */
    method HandleChange(n: Field, value: string)
      modifies this
      ensures form == Changed(old(form), n, value)
      ensures errors == old(errors) && store == old(store) && truckData == old(truckData)
    {
      form := Changed(form, n, value);
    }

    /** `validate` */
    method Validate() returns (ok: bool)
      modifies this
      ensures form == old(form) && store == old(store) && truckData == old(truckData)
      ensures errors == TruckErrors(form) && (ok <==> TruckValid(form))
    {
      var newErrors: Errors<ErrorKey> := NoErrors();
      newErrors := newErrors.PutIf(IsBlank(form.make), MakeKey, MakeRequired);
      newErrors := newErrors.PutIf(IsBlank(form.model), ModelKey, ModelRequired);
      if IsBlank(form.year) {
        newErrors := newErrors.Put(YearKey, YearRequired);
      } else if !FourDigits(form.year) {
        newErrors := newErrors.Put(YearKey, YearFormat);
      }
      newErrors := newErrors.PutIf(IsBlank(form.plateNumber), PlateNumberKey, PlateNumberRequired);
      TruckErrorsEmptyIff(form);
      errors := newErrors;
      ok := newErrors.Empty();
    }

    /** `handleSave`: nothing is written unless the form is valid; the write fails
        when `writeOk` is false or the edited record is gone. `newId` is the id the
        store would give a new record. */
    method HandleSave(writeOk: bool, newId: string) returns (saved: bool)
      requires newId !in store
      modifies this
      ensures form == old(form) && truckData == old(truckData)
      ensures errors == TruckErrors(form)
      ensures var id := EditId(truckData);
              saved <==> TruckValid(form) && writeOk && (id.Some? ==> id.value in old(store))
      ensures saved ==> store == Written(old(store), EditId(truckData), newId, AsDoc(form))
      ensures !saved ==> store == old(store)
    {
      var ok := Validate();
      if !ok {
        return false;
      }
      var id := EditId(truckData);
      if !writeOk || (id.Some? && id.value !in store) {
        return false;
      }
      store := Written(store, id, newId, AsDoc(form));
      saved := true;
    }
  }
}
