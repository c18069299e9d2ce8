/** src/components/modals/RouteModal.tsx: the add/edit route dialog. Its form is
    prefilled from the edited route, the route name follows the two cities while both
    are filled in, `validate` checks the pickup and drop-off city and state, and a
    valid form is saved to the routes collection. */
module RouteModal {
  import opened Js
  import opened Forms

  datatype RouteForm = RouteForm(
    routeName: string, pickupCity: string, pickupState: string, pickupAddress: string,
    dropoffCity: string, dropoffState: string, dropoffAddress: string,
    distance: string, duration: string, ratePerMile: string)

  /** The form of a new route: every field empty. */
  const Blank := RouteForm("", "", "", "", "", "", "", "", "", "")

  /** The inputs wired to `handleChange`, by their `name` attribute. The route name
      input is disabled and has no `onChange`, so it never reaches `handleChange`. */
  datatype Field = PickupAddress | PickupCity | PickupState | DropoffAddress | DropoffCity
                 | DropoffState | Distance | Duration | RatePerMile

  /** The field an input edits. */
  function Value(f: RouteForm, n: Field): string {
    match n
    case PickupAddress => f.pickupAddress
    case PickupCity => f.pickupCity
    case PickupState => f.pickupState
    case DropoffAddress => f.dropoffAddress
    case DropoffCity => f.dropoffCity
    case DropoffState => f.dropoffState
    case Distance => f.distance
    case Duration => f.duration
    case RatePerMile => f.ratePerMile
  }

  /** `{ ...form, [name]: value }` */
  function Changed(f: RouteForm, n: Field, v: string): (r: RouteForm)
    ensures Value(r, n) == v
    ensures r.routeName == f.routeName
  {
    match n
    case PickupAddress => f.(pickupAddress := v)
    case PickupCity => f.(pickupCity := v)
    case PickupState => f.(pickupState := v)
    case DropoffAddress => f.(dropoffAddress := v)
    case DropoffCity => f.(dropoffCity := v)
    case DropoffState => f.(dropoffState := v)
    case Distance => f.(distance := v)
    case Duration => f.(duration := v)
    case RatePerMile => f.(ratePerMile := v)
  }

  /** An input changes its own field and no other; the route name is never edited
      directly. */
  lemma ChangedSpec(f: RouteForm, n: Field, v: string, m: Field)
    ensures Value(Changed(f, n, v), m) == if m == n then v else Value(f, m)
    ensures Changed(f, n, v).routeName == f.routeName
  {
    match n
    case PickupAddress =>
    case PickupCity =>
    case PickupState =>
    case DropoffAddress =>
    case DropoffCity =>
    case DropoffState =>
    case Distance =>
    case Duration =>
    case RatePerMile =>
  }

  /** The form an edit opens on: `routeData.f || ""` for every field. */
  function Prefill(doc: Doc): RouteForm {
    RouteForm(
      FieldOr(doc, "routeName", ""), FieldOr(doc, "pickupCity", ""),
      FieldOr(doc, "pickupState", ""), FieldOr(doc, "pickupAddress", ""),
      FieldOr(doc, "dropoffCity", ""), FieldOr(doc, "dropoffState", ""),
      FieldOr(doc, "dropoffAddress", ""), FieldOr(doc, "distance", ""),
      FieldOr(doc, "duration", ""), FieldOr(doc, "ratePerMile", ""))
  }

  /** The fields `updateDoc` and `addDoc` write: `{ ...form }`. */
  function AsDoc(f: RouteForm): Doc {
    map[
      "routeName" := f.routeName, "pickupCity" := f.pickupCity, "pickupState" := f.pickupState,
      "pickupAddress" := f.pickupAddress, "dropoffCity" := f.dropoffCity,
      "dropoffState" := f.dropoffState, "dropoffAddress" := f.dropoffAddress,
      "distance" := f.distance, "duration" := f.duration, "ratePerMile" := f.ratePerMile]
  }

  /** Reopening a saved route shows the form that was saved, and an empty document
      opens as a new route. */
  lemma PrefillSpec(f: RouteForm)
    ensures Prefill(AsDoc(f)) == f
    ensures Prefill(map[]) == Blank
  {
  }

  /** `${pickupCity} → ${dropoffCity}` */
  function RouteName(pickupCity: string, dropoffCity: string): (r: string)
    ensures |r| == |pickupCity| + 3 + |dropoffCity|
    ensures r[..|pickupCity|] == pickupCity && r[|pickupCity| + 3..] == dropoffCity
  {
    pickupCity + " → " + dropoffCity
  }

  /** The name starts with the pickup city and ends with the drop-off city, so two
      pairs whose pickup cities have the same length share a name only if they are
      the same pair. Without the length condition this fails: see RouteNameAmbiguous. */
  lemma RouteNameSplitAtPickup(p1: string, d1: string, p2: string, d2: string)
    requires |p1| == |p2|
    requires RouteName(p1, d1) == RouteName(p2, d2)
    ensures p1 == p2 && d1 == d2
  {
    assert p1 == RouteName(p1, d1)[..|p1|];
    assert d1 == RouteName(p1, d1)[|p1| + 3..];
  }

  /** A city that itself contains the separator makes two different pairs share a
      name, so the name alone does not determine the cities. */
  lemma RouteNameAmbiguous()
    ensures RouteName("A → B", "C") == RouteName("A", "B → C")
    ensures "A → B" != "A"
  {
  }

  /** The route-name effect, run after the form went from `prev` to `next`: it fires
      when either city changed, and then names the route after both cities if both
      are filled in. */
  function AutoNamed(prev: RouteForm, next: RouteForm): (r: RouteForm)
    ensures r == next.(routeName := r.routeName)
    ensures r.routeName != next.routeName ==> r.routeName == RouteName(next.pickupCity, next.dropoffCity)
  {
    if (prev.pickupCity != next.pickupCity || prev.dropoffCity != next.dropoffCity)
       && next.pickupCity != "" && next.dropoffCity != ""
    then next.(routeName := RouteName(next.pickupCity, next.dropoffCity))
    else next
  }

  /** When the effect renames the route, and that a route name loaded with the record
      stays until a city is changed. */
  lemma AutoNamedSpec(prev: RouteForm, next: RouteForm)
    ensures var cityChanged := prev.pickupCity != next.pickupCity || prev.dropoffCity != next.dropoffCity;
            var bothFilled := next.pickupCity != "" && next.dropoffCity != "";
            AutoNamed(prev, next).routeName
            == if cityChanged && bothFilled then RouteName(next.pickupCity, next.dropoffCity)
               else next.routeName
    ensures prev.pickupCity == next.pickupCity && prev.dropoffCity == next.dropoffCity
            ==> AutoNamed(prev, next) == next
  {
  }

  /** The form after `handleChange` and the effect it triggers. */
  function Edited(form: RouteForm, n: Field, v: string): RouteForm {
    AutoNamed(form, Changed(form, n, v))
  }

  /** Only a city input can rename the route; filling in the second city names it
      after both, and every other input leaves the name alone. */
  lemma EditedSpec(form: RouteForm, n: Field, v: string)
    ensures n != PickupCity && n != DropoffCity ==> Edited(form, n, v).routeName == form.routeName
    ensures var r := Edited(form, n, v);
            (n == PickupCity || n == DropoffCity) && r.pickupCity != "" && r.dropoffCity != ""
            && (if n == PickupCity then form.pickupCity else form.dropoffCity) != v
            ==> r.routeName == RouteName(r.pickupCity, r.dropoffCity)
  {
  }

  /** The keys `validate` writes into its error object. */
  datatype ErrorKey = PickupCityKey | PickupStateKey | DropoffCityKey | DropoffStateKey

  const PickupCityRequired := "Pickup City is required"
  const PickupStateRequired := "Pickup State is required"
  const DropoffCityRequired := "Drop-off City is required"
  const DropoffStateRequired := "Drop-off State is required"

  /** The errors `validate` records, in insertion order. */
  function RouteErrors(f: RouteForm): Errors<ErrorKey> {
    NoErrors()
      .PutIf(IsBlank(f.pickupCity), PickupCityKey, PickupCityRequired)
      .PutIf(IsBlank(f.pickupState), PickupStateKey, PickupStateRequired)
      .PutIf(IsBlank(f.dropoffCity), DropoffCityKey, DropoffCityRequired)
      .PutIf(IsBlank(f.dropoffState), DropoffStateKey, DropoffStateRequired)
  }

  predicate RouteValid(f: RouteForm) {
    !IsBlank(f.pickupCity) && !IsBlank(f.pickupState)
    && !IsBlank(f.dropoffCity) && !IsBlank(f.dropoffState)
  }

  /** `validate` answers true exactly when both cities and both states are filled in. */
  lemma RouteErrorsEmptyIff(f: RouteForm)
    ensures RouteErrors(f).Empty() <==> RouteValid(f)
  {
  }

  /** Each checked field has an error iff it is blank, with its own message. */
  lemma RouteErrorMessages(f: RouteForm)
    ensures RouteErrors(f).Lookup(PickupCityKey) == if IsBlank(f.pickupCity) then Some(PickupCityRequired) else None
    ensures RouteErrors(f).Lookup(PickupStateKey) == if IsBlank(f.pickupState) then Some(PickupStateRequired) else None
    ensures RouteErrors(f).Lookup(DropoffCityKey) == if IsBlank(f.dropoffCity) then Some(DropoffCityRequired) else None
    ensures RouteErrors(f).Lookup(DropoffStateKey)
            == if IsBlank(f.dropoffState) then Some(DropoffStateRequired) else None
  {
  }

  /** The first message shown is the pickup city's whenever it is blank. */
  lemma RouteFirstMessage(f: RouteForm)
    ensures IsBlank(f.pickupCity) ==> RouteErrors(f).FirstMessage() == Some(PickupCityRequired)
  {
    PutIfFront(IsBlank(f.pickupCity), NoErrors(), PickupCityKey, PickupCityRequired);
    var e := NoErrors().PutIf(IsBlank(f.pickupCity), PickupCityKey, PickupCityRequired);
    var e2 := e.PutIf(IsBlank(f.pickupState), PickupStateKey, PickupStateRequired);
    var e3 := e2.PutIf(IsBlank(f.dropoffCity), DropoffCityKey, DropoffCityRequired);
    if IsBlank(f.pickupCity) {
      PutIfFront(IsBlank(f.pickupState), e, PickupStateKey, PickupStateRequired);
      PutIfFront(IsBlank(f.dropoffCity), e2, DropoffCityKey, DropoffCityRequired);
      PutIfFront(IsBlank(f.dropoffState), e3, DropoffStateKey, DropoffStateRequired);
    }
  }

  class Dialog {
    var routeData: Option<Doc>
    var form: RouteForm
    var errors: Errors<ErrorKey>
    var store: map<string, Doc>

    constructor (store: map<string, Doc>)
      ensures form == Blank && errors == NoErrors() && routeData == None
      ensures this.store == store
    {
      routeData := None;
      form := Blank;
      errors := NoErrors();
      this.store := store;
    }

    /** Opening the dialog, on `data` to edit or on a new route, followed by the
        route-name effect. A new route also clears the errors; an edit keeps them. */
    method Open(data: Option<Doc>)
      modifies this
      ensures routeData == data
      ensures form == AutoNamed(old(form), if data.Some? then Prefill(data.value) else Blank)
      ensures errors == if data.Some? then old(errors) else NoErrors()
      ensures store == old(store)
    {
      routeData := data;
      var next: RouteForm;
      if data.Some? {
        next := Prefill(data.value);
      } else {
        next := Blank;
        errors := NoErrors();
      }
      form := AutoNamed(form, next);
    }

    /** `handleChange` for the input named `n`, followed by the route-name effect. */
    method HandleChange(n: Field, value: string)
      modifies this
      ensures form == Edited(old(form), n, value)
      ensures errors == old(errors) && store == old(store) && routeData == old(routeData)
    {
      var next := Changed(form, n, value);
      form := AutoNamed(form, next);
    }

    /** `validate` */
    method Validate() returns (ok: bool)
      modifies this
      ensures form == old(form) && store == old(store) && routeData == old(routeData)
      ensures errors == RouteErrors(form) && (ok <==> RouteValid(form))
    {
      var newErrors: Errors<ErrorKey> := NoErrors();
      newErrors := newErrors.PutIf(IsBlank(form.pickupCity), PickupCityKey, PickupCityRequired);
      newErrors := newErrors.PutIf(IsBlank(form.pickupState), PickupStateKey, PickupStateRequired);
      newErrors := newErrors.PutIf(IsBlank(form.dropoffCity), DropoffCityKey, DropoffCityRequired);
      newErrors := newErrors.PutIf(IsBlank(form.dropoffState), DropoffStateKey, DropoffStateRequired);
      RouteErrorsEmptyIff(form);
      errors := newErrors;
      ok := newErrors.Empty();
    }

    /** `handleSave`: nothing is written unless the form is valid; the write fails
        when `writeOk` is false or the edited record is gone. */
    method HandleSave(writeOk: bool, newId: string) returns (saved: bool)
      requires newId !in store
      modifies this
      ensures form == old(form) && routeData == old(routeData)
      ensures errors == RouteErrors(form)
      ensures var id := EditId(routeData);
              saved <==> RouteValid(form) && writeOk && (id.Some? ==> id.value in old(store))
      ensures saved ==> store == Written(old(store), EditId(routeData), newId, AsDoc(form))
      ensures !saved ==> store == old(store)
    {
      var ok := Validate();
      if !ok {
        return false;
      }
      var id := EditId(routeData);
      if !writeOk || (id.Some? && id.value !in store) {
        return false;
      }
      store := Written(store, id, newId, AsDoc(form));
      saved := true;
    }
  }
}
