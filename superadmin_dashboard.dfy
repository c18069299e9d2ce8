/** src/components/layouts/superadmin-layouts/SuperadminDashboard.tsx: the
    superadmin's overview. Its first card counts the unread company-request
    notifications; clicking it marks every one of them read in one batch and then
    opens the request list. */
module SuperadminDashboard {
  import opened Js

  /** A document of the notifications collection; `kind` is its `type` field. */
  datatype Notification = Notification(id: string, status: string, kind: string, message: string)

  /** The query `status == "unread"` and `type == "company_request"`. */
  predicate IsNewRequest(n: Notification) {
    n.status == "unread" && n.kind == "company_request"
  }

  /** The badge: the size of the query's result. */
  function UnreadCount(ns: seq<Notification>): (c: nat)
    ensures c <= |ns|
  {
    if ns == [] then 0 else (if IsNewRequest(ns[0]) then 1 else 0) + UnreadCount(ns[1..])
  }

  /** The badge counts exactly the notifications the query returns. */
  lemma {:induction false} UnreadCountIsQuerySize(ns: seq<Notification>)
    ensures UnreadCount(ns) == |Filter(ns, IsNewRequest)|
  {
    if ns != [] {
      UnreadCountIsQuerySize(ns[1..]);
    }
  }

  /** The badge is zero exactly when no notification matches the query. */
  lemma {:induction false} UnreadCountZero(ns: seq<Notification>)
    ensures UnreadCount(ns) == 0 <==> forall i :: 0 <= i < |ns| ==> !IsNewRequest(ns[i])
  {
    if ns != [] {
      UnreadCountZero(ns[1..]);
      assert forall i :: 1 <= i < |ns| ==> ns[i] == ns[1..][i - 1];
    }
  }

  /** `batch.update(ref, { status: "read" })` */
  function MarkedRead(n: Notification): Notification {
    n.(status := "read")
  }

  /** The collection after the batch commits: every matching notification marked
      read, every other one as it was. */
  function AllMarkedRead(ns: seq<Notification>): (r: seq<Notification>)
    ensures |r| == |ns|
    ensures forall i :: 0 <= i < |ns| ==> r[i] == if IsNewRequest(ns[i]) then MarkedRead(ns[i]) else ns[i]
  {
    seq(|ns|, i requires 0 <= i < |ns| => if IsNewRequest(ns[i]) then MarkedRead(ns[i]) else ns[i])
  }

  /** After the batch no notification matches the query, so the badge drops to
      zero; a marked notification changed only its status. */
  lemma AllMarkedReadSpec(ns: seq<Notification>)
    ensures UnreadCount(AllMarkedRead(ns)) == 0
    ensures forall i :: 0 <= i < |ns| ==> AllMarkedRead(ns)[i].(status := ns[i].status) == ns[i]
  {
    UnreadCountZero(AllMarkedRead(ns));
  }

  class Dashboard {
    /** The notifications collection, in listing order. */
    var notifications: seq<Notification>
    var location: Option<string>

    constructor (notifications: seq<Notification>)
      ensures this.notifications == notifications && location == None
    {
      this.notifications := notifications;
      location := None;
    }

    /** `handleCompanyRequestsClick`; `queryOk` and `commitOk` are the outcomes of
        `getDocs` and of the batch commit. Any failure is caught and the page stays;
        `committed` tells whether a batch was committed. */
    method HandleCompanyRequestsClick(queryOk: bool, commitOk: bool) returns (committed: bool)
      modifies this
      ensures var matched := UnreadCount(old(notifications)) > 0;
              && (committed <==> queryOk && matched && commitOk)
              && (committed ==> notifications == AllMarkedRead(old(notifications)))
              && (!committed ==> notifications == old(notifications))
              && (location == if queryOk && (!matched || commitOk) then Some("/console/superadmin/requests")
                              else old(location))
    {
      committed := false;
      if !queryOk {
        return;
      }
      // The snapshot: the positions of the matching notifications.
      var snap: seq<nat> := [];
      var i := 0;
      while i < |notifications|
        invariant 0 <= i <= |notifications|
        invariant forall k :: 0 <= k < |snap| ==> snap[k] < i && IsNewRequest(notifications[snap[k]])
        invariant forall j :: 0 <= j < i && IsNewRequest(notifications[j]) ==> j in snap
      {
        if IsNewRequest(notifications[i]) {
          snap := snap + [i];
        }
        i := i + 1;
      }
      UnreadCountZero(notifications);
      assert |snap| > 0 ==> IsNewRequest(notifications[snap[0]]);
      if |snap| > 0 {
        if !commitOk {
          return;
        }
        // The batch: one status update per matching notification.
        var updated := notifications;
        var j := 0;
        while j < |snap|
          invariant 0 <= j <= |snap|
          invariant |updated| == |notifications|
          invariant forall k :: 0 <= k < |notifications| ==>
                      updated[k] == if k in snap[..j] then MarkedRead(notifications[k]) else notifications[k]
        {
          updated := updated[snap[j] := MarkedRead(notifications[snap[j]])];
          assert snap[..j + 1] == snap[..j] + [snap[j]];
          j := j + 1;
        }
        assert snap[..j] == snap;
        notifications := updated;
        committed := true;
      }
      location := Some("/console/superadmin/requests");
    }
  }
}
