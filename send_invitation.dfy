/** src/components/layouts/superadmin-layouts/Invites/SendInvitation.tsx: the form a
    superadmin uses to invite a company's admin. Sending creates the company under a
    random six-digit id, records a pending invitation, mails the link and then marks
    the invitation sent or failed. */
module SendInvitation {
  import opened Js
  import opened Validators

  const DefaultMessage := "You are welcome to sign up with FleetPro. Please click the link below to sign up and complete the admin process."
  const SiteBase := "https://trucking-app-3e473.web.app"

  /** `companyName.trim().length > 0 && validateEmail(companyEmail)`: the send button
      is enabled. */
  predicate FormValid(companyName: string, companyEmail: string) {
    |Trim(companyName)| > 0 && IsValidEmail(companyEmail)
  }

  /** The button is enabled exactly when the name is not blank and the email passes
      the pattern. */
  lemma FormValidSpec(companyName: string, companyEmail: string)
    ensures FormValid(companyName, companyEmail) <==> !IsBlank(companyName) && IsValidEmail(companyEmail)
  {
    BlankIsTrimEmpty(companyName);
  }

  /** `Math.floor(100000 + Math.random() * 900000)`, for the draw
      `Math.floor(Math.random() * 900000)`. */
  function RandomId(draw: nat): (n: nat)
    requires draw < 900000
    ensures 100000 <= n <= 999999
  {
    100000 + draw
  }

  /** `"company_" + randomId.toString()` */
  function CompanyId(randomId: nat): string {
    "company_" + NatToString(randomId)
  }

  /** A generated company id is "company_" and six digits that read back as the
      random number, so two ids are equal only for equal numbers. */
  lemma CompanyIdSpec(randomId: nat)
    requires 100000 <= randomId <= 999999
    ensures var id := CompanyId(randomId);
            |id| == 14 && id[..8] == "company_" && AllDigits(id[8..])
            && DecimalValue(id[8..]) == randomId
  {
    assert Pow10(5) == 100000 && Pow10(6) == 1000000;
    NatToStringLength(randomId, 6);
    NatToStringRoundTrip(randomId);
    assert CompanyId(randomId)[8..] == NatToString(randomId);
  }

  /** The signup link mailed to the admin. */
  function InviteLink(companyId: string, token: string): string {
    SiteBase + "/signup?companyId=" + companyId + "&token=" + token
  }

  /** The link names its company and token: two links for generated company ids are
      equal only when both the company and the token are. */
  lemma InviteLinkDetermines(r1: nat, t1: string, r2: nat, t2: string)
    requires 100000 <= r1 <= 999999 && 100000 <= r2 <= 999999
    requires InviteLink(CompanyId(r1), t1) == InviteLink(CompanyId(r2), t2)
    ensures r1 == r2 && t1 == t2
  {
    CompanyIdSpec(r1);
    CompanyIdSpec(r2);
    var p := SiteBase + "/signup?companyId=";
    var l1, l2 := InviteLink(CompanyId(r1), t1), InviteLink(CompanyId(r2), t2);
    assert l1[|p|..|p| + 14] == CompanyId(r1);
    assert l2[|p|..|p| + 14] == CompanyId(r2);
    assert CompanyId(r1)[8..] == CompanyId(r2)[8..];
    assert l1[|p| + 14 + 7..] == t1;
    assert l2[|p| + 14 + 7..] == t2;
  }

  /** A document of the companies collection as this page writes it. */
  datatype Company = Company(name: string, email: string, role: string, createdAt: string,
                             companyId: nat, createdBy: string)

  /** A document of the invitations collection. */
  datatype Invitation = Invitation(email: string, companyId: string, token: string, role: string,
                                   customMessage: string, status: string, error: Option<string>,
                                   createdAt: string)

  /** The invitation as first recorded: pending, for the admin role. */
  function Pending(email: string, companyId: string, token: string, message: string, now: string)
    : (inv: Invitation)
    ensures inv.status == "pending" && inv.role == "admin" && inv.error == None
    ensures inv.email == email && inv.companyId == companyId && inv.token == token
    ensures inv.customMessage == message
  {
    Invitation(email, companyId, token, "admin", message, "pending", None, now)
  }

  /** The status merge after the mail was dispatched: "sent", or "failed" with the
      message of the error when `failure` holds one. */
  function Dispatched(inv: Invitation, failure: Option<string>): Invitation {
    if failure.None? then inv.(status := "sent") else inv.(status := "failed", error := failure)
  }

  /** The merge writes the status (and the error of a failure) and keeps every other
      field of the invitation. */
  lemma DispatchedSpec(inv: Invitation, failure: Option<string>)
    ensures var r := Dispatched(inv, failure);
            (r.status == "sent" <==> failure.None?) && (r.status == "failed" <==> failure.Some?)
            && r.error == (if failure.Some? then failure else inv.error)
            && r.(status := inv.status, error := inv.error) == inv
  {
  }

  class Form {
    var companyName: string
    var companyEmail: string
    var customMessage: string
    var companyError: string
    var emailError: string
    var companies: map<string, Company>
    var invitations: map<string, Invitation>

    constructor (companies: map<string, Company>, invitations: map<string, Invitation>)
      ensures companyName == "" && companyEmail == "" && customMessage == DefaultMessage
      ensures companyError == "" && emailError == ""
      ensures this.companies == companies && this.invitations == invitations
    {
      companyName, companyEmail, customMessage := "", "", DefaultMessage;
      companyError, emailError := "", "";
      this.companies, this.invitations := companies, invitations;
    }

    /** The company name input: a blank name shows its error. */
    method ChangeCompanyName(value: string)
      modifies this
      ensures companyName == value
      ensures companyError == if IsBlank(value) then "Company name is required" else ""
      ensures companyEmail == old(companyEmail) && customMessage == old(customMessage)
      ensures emailError == old(emailError)
      ensures companies == old(companies) && invitations == old(invitations)
    {
      companyName := value;
      BlankIsTrimEmpty(value);
      if Trim(value) == "" {
        companyError := "Company name is required";
      } else {
        companyError := "";
      }
    }

    /** The email input: an address the pattern rejects shows its error. */
    method ChangeEmail(value: string)
      modifies this
      ensures companyEmail == value
      ensures emailError == if IsValidEmail(value) then "" else "Enter a valid email address"
      ensures companyName == old(companyName) && customMessage == old(customMessage)
      ensures companyError == old(companyError)
      ensures companies == old(companies) && invitations == old(invitations)
    {
      companyEmail := value;
      if !IsValidEmail(value) {
        emailError := "Enter a valid email address";
      } else {
        emailError := "";
      }
    }

    /** `handleSendInvite`, whose button is enabled only on a valid form. The
        parameters stand for what the page receives from outside: `draw` for the
        random number, `token` for the uuid, `user` for the signed-in user's uid,
        `companyWriteOk` and `invite` for the company write and the invitation's
        `addDoc` (its new id), `sendError` and `sentWriteError` for the mail and the
        "sent" merge (the error message of a failure), `failedWriteOk` for the "failed"
        merge, and `now` for the clock. The alert text is returned. */
    method HandleSendInvite(draw: nat, token: string, user: Option<string>, companyWriteOk: bool,
                            invite: Option<string>, sendError: Option<string>,
                            sentWriteError: Option<string>, failedWriteOk: bool, now: string)
      returns (alert: string)
      requires draw < 900000
      modifies this
      ensures companyError == old(companyError) && emailError == old(emailError)
      ensures var companyId := CompanyId(RandomId(draw));
              var link := InviteLink(companyId, token);
              var failure := if sendError.Some? then sendError else sentWriteError;
              var pending := Pending(old(companyEmail), companyId, token, old(customMessage), now);
              var finished := user.Some? && companyWriteOk && invite.Some? && (failure.None? || failedWriteOk);
              && (user.None? ==> alert == "You must be logged in as Superadmin to send invites")
              && (user.Some? && !finished ==> alert == "Failed to send invite ❌")
              && (finished ==> alert == "Invite sent to " + old(companyEmail) + "\nLink: " + link)
              && companies == (if user.Some? && companyWriteOk
                               then old(companies)[companyId := Company(old(companyName), old(companyEmail),
                                                      "admin", now, RandomId(draw), user.value)]
                               else old(companies))
              && invitations == (if user.Some? && companyWriteOk && invite.Some?
                                 then old(invitations)[invite.value :=
                                        if failure.None? || failedWriteOk then Dispatched(pending, failure)
                                        else pending]
                                 else old(invitations))
              && (finished ==> companyName == "" && companyEmail == "" && customMessage == DefaultMessage)
              && (!finished ==> companyName == old(companyName) && companyEmail == old(companyEmail)
                                && customMessage == old(customMessage))
    {
      var randomId := RandomId(draw);
      var companyId := CompanyId(randomId);
      if user.None? {
        return "You must be logged in as Superadmin to send invites";
      }
      if !companyWriteOk {
        return "Failed to send invite ❌";
      }
      companies := companies[companyId := Company(companyName, companyEmail, "admin", now, randomId, user.value)];
      if invite.None? {
        return "Failed to send invite ❌";
      }
      var inviteId := invite.value;
      var pending := Pending(companyEmail, companyId, token, customMessage, now);
      invitations := invitations[inviteId := pending];
      var link := InviteLink(companyId, token);
      if sendError.None? && sentWriteError.None? {
        invitations := invitations[inviteId := Dispatched(pending, None)];
      } else {
        var message := if sendError.Some? then sendError else sentWriteError;
        if !failedWriteOk {
          return "Failed to send invite ❌";
        }
        invitations := invitations[inviteId := Dispatched(pending, message)];
      }
      alert := "Invite sent to " + companyEmail + "\nLink: " + link;
      companyName, companyEmail, customMessage := "", "", DefaultMessage;
    }
  }
}
