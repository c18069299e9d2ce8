/** src/components/Auth/superadmin-signup-auth.tsx: the superadmin signup page. The
    email tab creates an auth account and a superadmin record under its uid; the phone
    tab sends a one-time code to the number typed and, once the code is confirmed,
    logs an existing superadmin in or creates the record under the phone number. */
module SuperadminSignup {
  import opened Js
  import opened Validators
  import opened PhoneField
  import opened Effects
  import opened Forms

  /** `+1${raw}`: the number the phone login is sent to. */
  function RawPhone(value: string): string {
    "+1" + KeptDigits(value)
  }

  /** The login number is "+1" and then the ten or fewer digits the field shows, and
      nothing else. */
  lemma RawPhoneSpec(value: string)
    ensures var r := RawPhone(value);
            |r| <= 12 && r[..2] == "+1" && AllDigits(r[2..]) && r[2..] == Digits(Shown(value))
  {
    ShownSpec(value);
  }

  /** The record the email tab writes under the new uid (note the key
      `company_name`). */
  function EmailRecord(email: string, now: string): Doc {
    map["email" := email, "role" := "superadmin", "createdAt" := now, "company_name" := "Drive Sphere"]
  }

  /** The record the phone tab writes under the login number for a new superadmin
      (note the key `companyName`). */
  function PhoneRecord(uid: string, phone: string, now: string): Doc {
    map["uid" := uid, "phone" := phone, "role" := "superadmin", "companyName" := "Drive Sphere",
        "createdAt" := now]
  }

  /** `setDoc(ref, { lastLogin }, { merge: true })` on an existing record. */
  function LoggedIn(record: Doc, now: string): Doc {
    record["lastLogin" := now]
  }

  /** The login merge sets `lastLogin` and keeps every other field of the record. */
  lemma LoggedInSpec(record: Doc, now: string)
    ensures LoggedIn(record, now).Keys == record.Keys + {"lastLogin"}
    ensures LoggedIn(record, now)["lastLogin"] == now
    ensures forall k :: k in record && k != "lastLogin" ==> LoggedIn(record, now)[k] == record[k]
  {
  }

  /** The second toast of a failed code check, after "Invalid OTP ❌". */
  function OtpErrorMessage(code: Option<string>): (m: string)
    ensures code == Some("auth/invalid-verification-code") ==> m == "Invalid OTP ❌"
    ensures code == Some("auth/invalid-phone-number") ==> m == "Phone number format is incorrect ❌"
    ensures code != Some("auth/invalid-verification-code") && code != Some("auth/invalid-phone-number")
            ==> m == "Failed to verify phone ❌"
  {
    if code == Some("auth/invalid-verification-code") then "Invalid OTP ❌"
    else if code == Some("auth/invalid-phone-number") then "Phone number format is incorrect ❌"
    else "Failed to verify phone ❌"
  }

  /** The toast `handleSignup` stops at, in the order of its checks: the email first,
      then the password. */
  function SignupRejection(email: string, password: string): (r: Option<string>)
    ensures r.None? <==> IsValidEmail(email) && PasswordOk(password)
    ensures !IsValidEmail(email) ==> r == Some("Please enter a valid email.")
    ensures IsValidEmail(email) && !PasswordOk(password) ==> r == Some("Password must be at least 6 characters.")
  {
    if !IsValidEmail(email) then Some("Please enter a valid email.")
    else if !PasswordOk(password) then Some("Password must be at least 6 characters.")
    else None
  }

  class Page {
    var email: string
    var password: string
    /** The formatted number the phone field shows. */
    var phone: string
    var rawPhone: string
    /** A code was sent (`confirmationResult` is set). */
    var otpSent: bool
    var disabledOtp: bool
    /** The superadmin collection. */
    var superadmins: map<string, Doc>
    var location: Option<string>

    constructor (superadmins: map<string, Doc>)
      ensures email == "" && password == "" && phone == "" && rawPhone == ""
      ensures !otpSent && disabledOtp && location == None && this.superadmins == superadmins
    {
      email, password, phone, rawPhone := "", "", "", "";
      otpSent, disabledOtp := false, true;
      this.superadmins := superadmins;
      location := None;
    }

    /** The email and password inputs. */
    method SetCredentials(email: string, password: string)
      modifies this
      ensures this.email == email && this.password == password
      ensures phone == old(phone) && rawPhone == old(rawPhone) && otpSent == old(otpSent)
      ensures disabledOtp == old(disabledOtp) && superadmins == old(superadmins) && location == old(location)
    {
      this.email, this.password := email, password;
    }

    /** `handlePhoneChange` */
    method HandlePhoneChange(value: string)
      modifies this
      ensures phone == Shown(value) && rawPhone == RawPhone(value)
      ensures email == old(email) && password == old(password) && otpSent == old(otpSent)
      ensures disabledOtp == old(disabledOtp) && superadmins == old(superadmins) && location == old(location)
    {
      var raw := Digits(value);
      if |raw| > 10 {
        raw := raw[..10];
      }
      var formatted := FormatPhoneNumber(raw);
      phone := formatted;
      rawPhone := "+1" + raw;
    }

    /** `sendOtp`; `sent` is the outcome of `signInWithPhoneNumber`. A failed send
        keeps an earlier code's confirmation. */
    method SendOtp(sent: bool) returns (notice: Notice)
      modifies this
      ensures otpSent == (old(otpSent) || sent) && disabledOtp == (old(disabledOtp) && !sent)
      ensures notice.isError <==> !sent
      ensures email == old(email) && password == old(password) && phone == old(phone)
      ensures rawPhone == old(rawPhone) && superadmins == old(superadmins) && location == old(location)
    {
      if !sent {
        return Notice("❌ Failed to send OTP", true);
      }
      otpSent := true;
      notice := Notice("✅ OTP sent to phone", false);
      disabledOtp := false;
    }

    /** `verifyOtp`; `confirm` is the outcome of checking the code (the user's uid or
        an error code) and `writeOk` that of reading and writing the record. The
        toasts are returned in the order they are shown. */
    method VerifyOtp(confirm: Attempt, writeOk: bool, now: string) returns (notices: seq<Notice>)
      modifies this
      ensures email == old(email) && password == old(password) && phone == old(phone)
      ensures rawPhone == old(rawPhone) && otpSent == old(otpSent) && disabledOtp == old(disabledOtp)
      ensures !otpSent ==>
                superadmins == old(superadmins) && location == old(location)
                && notices == [Notice("❌ Please request OTP first", true)]
      ensures otpSent && confirm.Failed? ==>
                superadmins == old(superadmins) && location == old(location)
                && notices == [Notice("Invalid OTP ❌", true), Notice(OtpErrorMessage(confirm.code), true)]
      ensures otpSent && confirm.Done? && !writeOk ==>
                superadmins == old(superadmins) && location == old(location)
                && notices == [Notice("Invalid OTP ❌", true), Notice("Failed to verify phone ❌", true)]
      ensures otpSent && confirm.Done? && writeOk ==>
                superadmins == old(superadmins)[rawPhone :=
                  if rawPhone in old(superadmins) then LoggedIn(old(superadmins)[rawPhone], now)
                  else PhoneRecord(confirm.id, phone, now)]
                && location == Some("/console/superadmin")
                && notices == [if rawPhone in old(superadmins) then Notice("✅ Superadmin logged in", false)
                               else Notice("🎉 Superadmin account created", false)]
    {
      if !otpSent {
        return [Notice("❌ Please request OTP first", true)];
      }
      if confirm.Failed? {
        return [Notice("Invalid OTP ❌", true), Notice(OtpErrorMessage(confirm.code), true)];
      }
      if !writeOk {
        return [Notice("Invalid OTP ❌", true), Notice(OtpErrorMessage(None), true)];
      }
      if rawPhone in superadmins {
        superadmins := superadmins[rawPhone := LoggedIn(superadmins[rawPhone], now)];
        notices := [Notice("✅ Superadmin logged in", false)];
      } else {
        superadmins := superadmins[rawPhone := PhoneRecord(confirm.id, phone, now)];
        notices := [Notice("🎉 Superadmin account created", false)];
      }
      location := Some("/console/superadmin");
    }

    /** `handleSignup`; `account` is the outcome of creating the auth account and
        `writeOk` that of writing its record. */
    method HandleSignup(account: Attempt, writeOk: bool, now: string) returns (notice: Notice)
      modifies this
      ensures email == old(email) && password == old(password) && phone == old(phone)
      ensures rawPhone == old(rawPhone) && otpSent == old(otpSent) && disabledOtp == old(disabledOtp)
      ensures SignupRejection(email, password).Some? ==>
                notice == Notice(SignupRejection(email, password).value, true)
                && superadmins == old(superadmins) && location == old(location)
      ensures SignupRejection(email, password).None? && account.Done? && writeOk ==>
                superadmins == old(superadmins)[account.id := EmailRecord(email, now)]
                && location == Some("/") && !notice.isError
      ensures SignupRejection(email, password).None? && (account.Failed? || !writeOk) ==>
                superadmins == old(superadmins) && location == old(location)
                && notice == Notice("Signup failed.", true)
    {
      if !IsValidEmail(email) {
        return Notice("Please enter a valid email.", true);
      }
      if !PasswordOk(password) {
        return Notice("Password must be at least 6 characters.", true);
      }
      if account.Failed? || !writeOk {
        return Notice("Signup failed.", true);
      }
      superadmins := superadmins[account.id := EmailRecord(email, now)];
      notice := Notice("Superadmin registered. You can now log in.", false);
      location := Some("/");
    }
  }
}
