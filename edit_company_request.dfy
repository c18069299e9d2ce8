/** src/components/modals/EditCompanyRequestModal.tsx: the dialog in which a
    superadmin corrects a company request. Its form is a copy of the request; an input
    named "address.<f>" or "requestedBy.<f>" edits one field of that nested object and
    any other input one top-level field; saving writes a normalised update that never
    includes the request's status. */
module EditCompanyRequest {
  import opened Js

  /** A nested object of the request: `address` or `requestedBy`. */
  type Nested = map<string, string>

  /** A company request as the form holds it: its top-level fields (the document id
      among them, under "id") and the two nested objects, each possibly missing. */
  datatype Request = Request(top: map<string, Value>, address: Option<Nested>, requestedBy: Option<Nested>)

  /** `request.k`, `undefined` when missing. */
  function Top(r: Request, k: string): Value {
    if k in r.top then r.top[k] else Undefined
  }

  /** `{ ...nested, [f]: value }`: spreading a missing object gives `{}`. */
  function SetNested(nested: Option<Nested>, f: string, value: string): Nested {
    (if nested.Some? then nested.value else map[])[f := value]
  }

  /** `handleChange` for the input named `name`. */
  function Changed(form: Request, name: string, value: string): Request {
    if StartsWith(name, "address.") then
      form.(address := Some(SetNested(form.address, name[8..], value)))
    else if StartsWith(name, "requestedBy.") then
      form.(requestedBy := Some(SetNested(form.requestedBy, name[12..], value)))
    else
      form.(top := form.top[name := Str(value)])
  }

  /** An "address.<f>" input sets only `address[f]`, a "requestedBy.<f>" input only
      `requestedBy[f]`, keeping every other field of that object and everything else
      in the form; any other input sets only its own top-level field. */
  lemma ChangedSpec(form: Request, name: string, value: string)
    ensures var r := Changed(form, name, value);
            StartsWith(name, "address.") ==>
              var f := name[8..];
              && r.top == form.top && r.requestedBy == form.requestedBy && r.address.Some?
              && f in r.address.value && r.address.value[f] == value
              && (form.address.Some? ==> r.address.value.Keys == form.address.value.Keys + {f})
              && (forall g :: g != f && form.address.Some? && g in form.address.value ==>
                               g in r.address.value && r.address.value[g] == form.address.value[g])
    ensures var r := Changed(form, name, value);
            StartsWith(name, "requestedBy.") ==>
              var f := name[12..];
              && r.top == form.top && r.address == form.address && r.requestedBy.Some?
              && f in r.requestedBy.value && r.requestedBy.value[f] == value
              && (form.requestedBy.Some? ==> r.requestedBy.value.Keys == form.requestedBy.value.Keys + {f})
              && (forall g :: g != f && form.requestedBy.Some? && g in form.requestedBy.value ==>
                               g in r.requestedBy.value && r.requestedBy.value[g] == form.requestedBy.value[g])
    ensures var r := Changed(form, name, value);
            !StartsWith(name, "address.") && !StartsWith(name, "requestedBy.") ==>
              && r.address == form.address && r.requestedBy == form.requestedBy
              && Top(r, name) == Str(value)
              && (forall k :: k != name ==> Top(r, k) == Top(form, k))
  {
    if StartsWith(name, "address.") {
      assert !StartsWith(name, "requestedBy.") by {
        assert name[1] == 'd';
      }
    }
  }

  /** The fields `handleSave` writes with `updateDoc`. */
  datatype Update = Update(companyName: Value, dotNumber: Value, employerIdentificationNumber: Value,
                           numEmployees: Value, address: Nested, requestedBy: Nested)

  /** The update built from the form: empty numbers become null, a falsy employee
      count null and any other one a number, a missing nested object `{}`. */
  function Normalised(form: Request): (u: Update)
    ensures u.companyName == Top(form, "companyName")
    ensures Truthy(Top(form, "dotNumber")) ==> u.dotNumber == Top(form, "dotNumber")
    ensures !Truthy(Top(form, "dotNumber")) ==> u.dotNumber == Null
    ensures Truthy(Top(form, "employerIdentificationNumber"))
            ==> u.employerIdentificationNumber == Top(form, "employerIdentificationNumber")
    ensures !Truthy(Top(form, "employerIdentificationNumber")) ==> u.employerIdentificationNumber == Null
    ensures !Truthy(Top(form, "numEmployees")) ==> u.numEmployees == Null
    ensures Truthy(Top(form, "numEmployees")) ==> u.numEmployees == Num(ToNumber(Top(form, "numEmployees")))
    ensures u.address == (if form.address.Some? then form.address.value else map[])
    ensures u.requestedBy == (if form.requestedBy.Some? then form.requestedBy.value else map[])
  {
    Update(
      Top(form, "companyName"),
      Or(Top(form, "dotNumber"), Null),
      Or(Top(form, "employerIdentificationNumber"), Null),
      if Truthy(Top(form, "numEmployees")) then Num(ToNumber(Top(form, "numEmployees"))) else Null,
      if form.address.Some? then form.address.value else map[],
      if form.requestedBy.Some? then form.requestedBy.value else map[])
  }

  /** `updateDoc(ref, update)`: the listed top-level fields are replaced and every
      other field of the stored request is kept. */
  function Applied(stored: Request, u: Update): Request {
    Request(
      stored.top["companyName" := u.companyName]["dotNumber" := u.dotNumber]
                ["employerIdentificationNumber" := u.employerIdentificationNumber]
                ["numEmployees" := u.numEmployees],
      Some(u.address), Some(u.requestedBy))
  }

  /** Saving never changes a stored request's status, nor any other top-level field
      outside the four it writes. */
  lemma AppliedKeepsStatus(stored: Request, u: Update)
    ensures Top(Applied(stored, u), "status") == Top(stored, "status")
    ensures forall k :: k !in {"companyName", "dotNumber", "employerIdentificationNumber", "numEmployees"}
                        ==> Top(Applied(stored, u), k) == Top(stored, k)
  {
  }

  /** `form?.id`, when it is a non-empty string. */
  function SaveId(form: Option<Request>): (id: Option<string>)
    ensures id.Some? ==> form.Some? && Top(form.value, "id") == Str(id.value) && id.value != ""
  {
    if form.Some? && Top(form.value, "id").Str? && Top(form.value, "id").s != ""
    then Some(Top(form.value, "id").s) else None
  }

  class Dialog {
    /** `null` until a request was given to edit. */
    var form: Option<Request>
    /** The company_requests collection, by document id. */
    var requests: map<string, Request>
    var closed: bool

    constructor (requests: map<string, Request>)
      ensures form == None && this.requests == requests && !closed
    {
      form := None;
      this.requests := requests;
      closed := false;
    }

    /** The effect run when the `request` prop changes: a request is copied into the
        form, and no request leaves the form as it was. */
    method Open(request: Option<Request>)
      modifies this
      ensures form == if request.Some? then request else old(form)
      ensures requests == old(requests) && closed == old(closed)
    {
      if request.Some? {
        form := request;
      }
    }

    /** `handleChange`; the inputs are shown only while there is a form. */
    method HandleChange(name: string, value: string)
      requires form.Some?
      modifies this
      ensures form == Some(Changed(old(form).value, name, value))
      ensures requests == old(requests) && closed == old(closed)
    {
      var prev := form.value;
      if StartsWith(name, "address.") {
        var addrField := name[8..];
        form := Some(prev.(address := Some(SetNested(prev.address, addrField, value))));
      } else if StartsWith(name, "requestedBy.") {
        var contactField := name[12..];
        form := Some(prev.(requestedBy := Some(SetNested(prev.requestedBy, contactField, value))));
      } else {
        form := Some(prev.(top := prev.top[name := Str(value)]));
      }
    }

    /** `handleSave`; `writeOk` is the outcome of `updateDoc`, which also fails when
        the request is gone. A form without an id writes nothing and shows nothing. */
    method HandleSave(writeOk: bool) returns (notice: Option<(string, bool)>)
      modifies this
      ensures form == old(form)
      ensures var id := SaveId(form);
              var saved := id.Some? && writeOk && id.value in old(requests);
              && (id.None? ==> notice == None)
              && (saved ==> requests == old(requests)[id.value := Applied(old(requests)[id.value], Normalised(form.value))]
                            && closed && notice == Some(("Company request updated ✅", false)))
              && (!saved ==> requests == old(requests) && closed == old(closed))
              && (id.Some? && !saved ==> notice == Some(("Failed to update company request ❌", true)))
    {
      var id := SaveId(form);
      if id.None? {
        return None;
      }
      if !writeOk || id.value !in requests {
        return Some(("Failed to update company request ❌", true));
      }
      requests := requests[id.value := Applied(requests[id.value], Normalised(form.value))];
      notice := Some(("Company request updated ✅", false));
      closed := true;
    }
  }
}
