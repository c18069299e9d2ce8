/** src/components/layouts/superadmin-layouts/CompanyRequests.tsx: the superadmin's
    list of company requests, newest first. A request is shown under the tab equal
    to its status, ignoring case, when its company name, contact name or request
    type contains the search text, ignoring case. */
module CompanyRequests {
  import opened Js
  import AdminSignup

  /** A request as listed: the fields the page reads, each possibly missing. */
  datatype Request = Request(id: string, companyName: Option<string>, contactName: Option<string>,
                             requestType: Option<string>, status: Option<string>)

  /** `statusTabs` */
  const StatusTabs: seq<string> := ["New", "In Review", "Quoted", "Accepted", "Rejected", "Completed"]

  /** The predicate of `filtered`. */
  predicate RequestShown(r: Request, tab: string, search: string) {
    r.status.Some? && ToLower(r.status.value) == ToLower(tab)
    && (FieldMatches(r.companyName, search) || FieldMatches(r.contactName, search)
        || FieldMatches(r.requestType, search))
  }

  function Filtered(requests: seq<Request>, tab: string, search: string): (r: seq<Request>)
    ensures forall i :: 0 <= i < |r| ==> r[i] in requests && RequestShown(r[i], tab, search)
    ensures forall i :: 0 <= i < |requests| && RequestShown(requests[i], tab, search) ==> requests[i] in r
  {
    Filter(requests, (x: Request) => RequestShown(x, tab, search))
  }

  /** The shown requests keep the newest-first order of the query, and neither the
      case of the tab nor that of the search text matters. */
  lemma FilteredSpec(requests: seq<Request>, tab: string, search: string)
    ensures SubsequenceOf(Filtered(requests, tab, search), requests)
    ensures Filtered(requests, ToLower(tab), ToLower(search)) == Filtered(requests, tab, search)
  {
    FilterIsSubsequence(requests, (x: Request) => RequestShown(x, tab, search));
    ToLowerIdempotent(tab);
    forall i | 0 <= i < |requests|
      ensures RequestShown(requests[i], ToLower(tab), ToLower(search)) == RequestShown(requests[i], tab, search)
    {
      FieldMatchesCaseBlind(requests[i].companyName, search);
      FieldMatchesCaseBlind(requests[i].contactName, search);
      FieldMatchesCaseBlind(requests[i].requestType, search);
    }
    FilterCongruent(requests, (x: Request) => RequestShown(x, ToLower(tab), ToLower(search)),
                    (x: Request) => RequestShown(x, tab, search));
  }

  /** The "No <tab> requests found." line is shown exactly when no request passes. */
  lemma EmptyStateSpec(requests: seq<Request>, tab: string, search: string)
    ensures Filtered(requests, tab, search) == [] <==>
            forall i :: 0 <= i < |requests| ==> !RequestShown(requests[i], tab, search)
  {
    if Filtered(requests, tab, search) != [] {
      var r := Filtered(requests, tab, search);
      assert r[0] in requests;
    }
  }

  /** A request as the admin signup page files it: it has a company name but no
      contact name or request type. */
  function Filed(id: string, r: AdminSignup.CompanyRequest): Request {
    Request(id, Some(r.companyName), None, None, Some(r.status))
  }

  /** Every request the signup page files is "pending", which is none of the six
      tabs, so it is never listed, whatever the search. */
  lemma FiledRequestNeverListed(id: string, f: AdminSignup.Form, search: string)
    ensures forall i :: 0 <= i < |StatusTabs| ==>
              !RequestShown(Filed(id, AdminSignup.RequestRecord(f)), StatusTabs[i], search)
  {
    assert ToLower("pending") == "pending";
    forall i | 0 <= i < |StatusTabs|
      ensures ToLower(StatusTabs[i]) != "pending"
    {
      assert ToLower(StatusTabs[i])[0] != 'p';
    }
  }

  /** The tabs with the status the signup page files added. */
  const ListedTabs: seq<string> := ["Pending"] + StatusTabs

  /** Under the added "Pending" tab every filed request is listed for an empty
      search, and a request matching one of the original tabs still matches it. */
  lemma FiledRequestListed(id: string, f: AdminSignup.Form)
    ensures RequestShown(Filed(id, AdminSignup.RequestRecord(f)), ListedTabs[0], "")
    ensures forall i :: 0 <= i < |StatusTabs| ==> ListedTabs[i + 1] == StatusTabs[i]
  {
    assert ToLower("pending") == "pending";
    assert ToLower("Pending") == "pending";
    assert OccursAt(ToLower(f.companyName), ToLower(""), 0);
  }
}
