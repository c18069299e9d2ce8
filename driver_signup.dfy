/** src/components/Auth/driver-signup-auth.tsx: the page a driver reaches from an
    invitation link. It loads the invite named by the link's token, and a signup on a
    valid invite creates the driver's account and record and marks the invite used,
    so the same link cannot be redeemed again. */
module DriverSignup {
  import opened Js
  import opened Validators
  import opened Effects

  /** A document of the driver_invites collection, keyed by its token. A missing
      `used` flag reads as false. */
  datatype Invite = Invite(companyId: string, invitedBy: Option<string>, used: bool,
                           usedByUid: Option<string>, usedAt: Option<string>)

  /** A document of the drivers collection, keyed by the driver's uid. */
  datatype Driver = Driver(email: string, companyId: string, invitedBy: Option<string>, createdAt: string)

  /** `loadInvite`'s verdict: a non-empty token whose invite exists and is unused. */
  predicate Usable(token: Option<string>, invites: map<string, Invite>) {
    token.Some? && token.value != "" && token.value in invites && !invites[token.value].used
  }

  /** `inviteData.invitedBy || null` */
  function InvitedBy(invite: Invite): (r: Option<string>)
    ensures r.Some? <==> invite.invitedBy.Some? && invite.invitedBy.value != ""
    ensures r.Some? ==> r == invite.invitedBy
  {
    if invite.invitedBy.Some? && invite.invitedBy.value != "" then invite.invitedBy else None
  }

  /** The driver record: the invite's company, its inviter or null. */
  function DriverRecord(email: string, invite: Invite, now: string): (d: Driver)
    ensures d.email == email && d.companyId == invite.companyId && d.invitedBy == InvitedBy(invite)
  {
    Driver(email, invite.companyId, InvitedBy(invite), now)
  }

  /** The invites after the token was redeemed by `uid`. */
  function Redeemed(invites: map<string, Invite>, token: string, uid: string, now: string)
    : map<string, Invite>
    requires token in invites
  {
    invites[token := invites[token].(used := true, usedByUid := Some(uid), usedAt := Some(now))]
  }

  /** Redemption marks that one invite used by `uid`, keeps its company and inviter,
      touches no other invite, and leaves the token unusable for every later load. */
  lemma RedeemedSpec(invites: map<string, Invite>, token: string, uid: string, now: string)
    requires token in invites
    ensures var r := Redeemed(invites, token, uid, now);
            r.Keys == invites.Keys
            && r[token].used && r[token].usedByUid == Some(uid)
            && r[token].companyId == invites[token].companyId
            && r[token].invitedBy == invites[token].invitedBy
            && (forall t :: t in invites && t != token ==> r[t] == invites[t])
            && !Usable(Some(token), r)
  {
  }

  /** The toast `handleSignup` stops at before creating anything, in the order of its
      checks: the invite, then the email, then the password. */
  function SignupRejection(inviteValid: Option<bool>, inviteData: Option<Invite>, email: string,
                           password: string): (r: Option<string>)
    ensures r.None? <==> inviteValid == Some(true) && inviteData.Some? && IsValidEmail(email) && PasswordOk(password)
    ensures inviteValid != Some(true) || inviteData.None? ==> r == Some("Invalid or expired invite.")
    ensures inviteValid == Some(true) && inviteData.Some? && !IsValidEmail(email) ==> r == Some("Enter a valid email.")
    ensures inviteValid == Some(true) && inviteData.Some? && IsValidEmail(email) && !PasswordOk(password)
            ==> r == Some("Password must be at least 6 characters.")
  {
    if inviteValid != Some(true) || inviteData.None? then Some("Invalid or expired invite.")
    else if !IsValidEmail(email) then Some("Enter a valid email.")
    else if !PasswordOk(password) then Some("Password must be at least 6 characters.")
    else None
  }

  class Page {
    /** The `token` query parameter of the link. */
    const token: Option<string>
    /** `null` until the invite was loaded, then the verdict. */
    var inviteValid: Option<bool>
    var inviteData: Option<Invite>
    var email: string
    var password: string
    var invites: map<string, Invite>
    var drivers: map<string, Driver>
    var location: Option<string>

    constructor (token: Option<string>, invites: map<string, Invite>, drivers: map<string, Driver>)
      ensures this.token == token && inviteValid == None && inviteData == None
      ensures email == "" && password == "" && location == None
      ensures this.invites == invites && this.drivers == drivers
    {
      this.token := token;
      inviteValid, inviteData := None, None;
      email, password := "", "";
      this.invites, this.drivers := invites, drivers;
      location := None;
    }

    /** The email and password inputs. */
    method SetCredentials(email: string, password: string)
      modifies this
      ensures this.email == email && this.password == password
      ensures inviteValid == old(inviteValid) && inviteData == old(inviteData)
      ensures invites == old(invites) && drivers == old(drivers) && location == old(location)
    {
      this.email, this.password := email, password;
    }

    /** `loadInvite`; `readOk` is the outcome of `getDoc`. It reads the invite and
        writes nothing, so loading again gives the same verdict. A rejected invite
        leaves `inviteData` as it was; a failed read leaves the page as it was, so a
        first load that fails keeps the verdict null and the page renders nothing. */
    method LoadInvite(readOk: bool)
      modifies this
      ensures var asked := token.Some? && token.value != "";
              if asked && !readOk then inviteValid == old(inviteValid) && inviteData == old(inviteData)
              else inviteValid == Some(Usable(token, invites))
                   && inviteData == if Usable(token, invites) then Some(invites[token.value]) else old(inviteData)
      ensures invites == old(invites) && drivers == old(drivers)
      ensures email == old(email) && password == old(password) && location == old(location)
    {
      if token.None? || token.value == "" {
        inviteValid := Some(false);
        return;
      }
      if !readOk {
        return;
      }
      if token.value !in invites || invites[token.value].used {
        inviteValid := Some(false);
      } else {
        inviteValid := Some(true);
        inviteData := Some(invites[token.value]);
      }
    }

    /** `handleSignup`; `account` is the outcome of creating the auth account, and
        `driverWriteOk` and `inviteWriteOk` those of the two writes. The driver record
        is built from the invite as it was loaded. */
    method HandleSignup(account: Attempt, driverWriteOk: bool, inviteWriteOk: bool, now: string)
      returns (notice: Notice)
      modifies this
      ensures inviteValid == old(inviteValid) && inviteData == old(inviteData)
      ensures email == old(email) && password == old(password)
      ensures var rejection := SignupRejection(inviteValid, inviteData, email, password);
              rejection.Some? ==>
                notice == Notice(rejection.value, true)
                && invites == old(invites) && drivers == old(drivers) && location == old(location)
      ensures SignupRejection(inviteValid, inviteData, email, password).None? ==>
                (account.Failed? || !driverWriteOk ==>
                   invites == old(invites) && drivers == old(drivers))
                && (account.Done? && driverWriteOk ==>
                   drivers == old(drivers)[account.id := DriverRecord(email, inviteData.value, now)])
      ensures var redeemed := SignupRejection(inviteValid, inviteData, email, password).None?
                              && account.Done? && driverWriteOk && inviteWriteOk
                              && token.Some? && token.value in old(invites);
              (redeemed ==> invites == Redeemed(old(invites), token.value, account.id, now)
                            && !Usable(token, invites) && location == Some("/") && !notice.isError)
              && (!redeemed ==> location == old(location))
      ensures SignupRejection(inviteValid, inviteData, email, password).None? && account.Done?
              && driverWriteOk && !(inviteWriteOk && token.Some? && token.value in old(invites))
              ==> invites == old(invites) && notice == Notice("Signup failed.", true)
      ensures SignupRejection(inviteValid, inviteData, email, password).None? && (account.Failed? || !driverWriteOk)
              ==> notice == Notice("Signup failed.", true)
    {
      if inviteValid != Some(true) || inviteData.None? {
        return Notice("Invalid or expired invite.", true);
      }
      if !IsValidEmail(email) {
        return Notice("Enter a valid email.", true);
      }
      if !PasswordOk(password) {
        return Notice("Password must be at least 6 characters.", true);
      }
      if account.Failed? || !driverWriteOk {
        return Notice("Signup failed.", true);
      }
      drivers := drivers[account.id := DriverRecord(email, inviteData.value, now)];
      // `updateDoc` fails when the invite's document is gone.
      if !inviteWriteOk || token.None? || token.value !in invites {
        return Notice("Signup failed.", true);
      }
      invites := Redeemed(invites, token.value, account.id, now);
      notice := Notice("Driver account created. You can now log in.", false);
      location := Some("/");
    }
  }
}
