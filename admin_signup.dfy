/** src/components/Auth/admin-signup-auth.tsx: the admin signup page. Its request tab
    files a company request for the operators to review; its self-serve tab creates
    the admin's auth account, the company and the admin profile at once. Both tabs
    validate the shared form first and write nothing while it has errors. */
module AdminSignup {
  import opened Js
  import opened Validators
  import opened PhoneField
  import opened Effects

  // ---------------------------------------------------------------------------
  // Field checks
  // ---------------------------------------------------------------------------

  /** `[0-9()\-\s]` */
  predicate PhoneChar(c: char) {
    IsDigit(c) || c == '(' || c == ')' || c == '-' || IsSpace(c)
  }

  /** `/^\+?[0-9()\-\s]{7,}$/.test(p)`: an optional leading "+", then at least seven
      characters from the class. A "+" cannot match the class, so the optional sign
      is taken exactly when the string starts with one. */
  predicate PhoneOk(p: string) {
    var body := if p != "" && p[0] == '+' then p[1..] else p;
    |body| >= 7 && forall i :: 0 <= i < |body| ==> PhoneChar(body[i])
  }

  /** `/^\d+$/.test(v)` */
  predicate IsInt(v: string) {
    v != "" && AllDigits(v)
  }

  /** A phone typed into the field passes `phoneOk` exactly when it has at least four
      digits: the formatter's parentheses, space and dash count towards the seven
      characters. */
  lemma ShownPhoneOk(value: string)
    ensures PhoneOk(Shown(value)) <==> |KeptDigits(value)| >= 4
  {
    var d := KeptDigits(value);
    var r := Shown(value);
    DigitsOfDigits(d);
    PhoneFormatShapes(d);
    assert forall i :: 0 <= i < |d| ==> PhoneChar(d[i]);
    if |d| == 0 {
      assert r == "";
    } else if |d| < 3 {
      assert r == "(" + d;
    } else if |d| < 6 {
      assert r == "(" + d[..3] + ") " + d[3..];
      assert forall i :: 0 <= i < |r| ==> PhoneChar(r[i]) by {
        forall i | 0 <= i < |r| ensures PhoneChar(r[i]) {
          if 1 <= i < 4 { assert r[i] == d[i - 1]; }
          else if i >= 6 { assert r[i] == d[i - 3]; }
        }
      }
    } else {
      assert r == "(" + d[..3] + ") " + d[3..6] + "-" + d[6..];
      assert forall i :: 0 <= i < |r| ==> PhoneChar(r[i]) by {
        forall i | 0 <= i < |r| ensures PhoneChar(r[i]) {
          if 1 <= i < 4 { assert r[i] == d[i - 1]; }
          else if 6 <= i < 9 { assert r[i] == d[i - 3]; }
          else if i >= 10 { assert r[i] == d[i - 4]; }
        }
      }
    }
  }

  /** An address the email pattern accepts is never blank: it holds an "@". */
  lemma EmailNotBlank(s: string)
    ensures IsValidEmail(s) ==> !IsBlank(s)
  {
    if IsValidEmail(s) {
      var i, j :| 0 < i && i + 1 < j && j + 1 < |s| && EmailSplit(s, i, j);
      assert !IsSpace(s[i]);
    }
  }

  // ---------------------------------------------------------------------------
  // The form and its two validators
  // ---------------------------------------------------------------------------

  /** The page's input state, shared by both tabs. */
  datatype Form = Form(companyName: string, dotNumber: string, employerNumber: string,
                       firstName: string, lastName: string, adminEmail: string,
                       adminPhone: string, numEmployees: string, password: string,
                       confirm: string)

  const EmptyForm := Form("", "", "", "", "", "", "", "", "", "")

  /** `!adminEmail.trim() || !isValidEmail(adminEmail)` */
  predicate EmailRejected(e: string) {
    IsBlank(e) || !IsValidEmail(e)
  }

  /** `!adminPhone.trim() || !phoneOk(adminPhone)` */
  predicate PhoneRejected(p: string) {
    IsBlank(p) || !PhoneOk(p)
  }

  /** `!numEmployees.trim() || !isInt(numEmployees)` */
  predicate CountRejected(v: string) {
    IsBlank(v) || !IsInt(v)
  }

  /** `password.length < 6` */
  predicate PasswordShort(p: string) {
    !PasswordOk(p)
  }

  /** `adminPhone && !phoneOk(adminPhone)`: the self-serve phone is optional. */
  predicate OptionalPhoneRejected(p: string) {
    p != "" && !PhoneOk(p)
  }

  /** The keys the validators write into their error objects. */
  datatype ErrorKey = CompanyNameKey | DotNumberKey | NumEmployeesKey | FirstNameKey | LastNameKey
                    | AdminEmailKey | AdminPhoneKey | PasswordKey | ConfirmKey

  const CompanyNameRequired := "The company name is required"
  const DotNumberRequired := "The dot name is required"
  const EmployeesInvalid := "Please Enter a whole number of employees"
  const FirstNameRequired := "The first name is required"
  const LastNameRequired := "The last name is required"
  const EmailInvalid := "A valid email is required"
  const PhoneRequired := "A valid phone is required"
  const PasswordTooShort := "Password must be at least 6 characters"
  const PasswordMismatch := "Passwords do not match"
  const PhoneInvalid := "Please Enter a valid phone number"

  /** `validateRequestForm()` */
  function RequestErrors(f: Form): Errors<ErrorKey> {
    NoErrors()
      .PutIf(IsBlank(f.companyName), CompanyNameKey, CompanyNameRequired)
      .PutIf(IsBlank(f.firstName), FirstNameKey, FirstNameRequired)
      .PutIf(IsBlank(f.lastName), LastNameKey, LastNameRequired)
      .PutIf(EmailRejected(f.adminEmail), AdminEmailKey, EmailInvalid)
      .PutIf(PhoneRejected(f.adminPhone), AdminPhoneKey, PhoneRequired)
  }

  /** What a company request needs: a company and contact name, a valid email and a
      phone that is not blank and passes `phoneOk`. */
  predicate RequestValid(f: Form) {
    !IsBlank(f.companyName) && !IsBlank(f.firstName) && !IsBlank(f.lastName)
    && IsValidEmail(f.adminEmail) && !IsBlank(f.adminPhone) && PhoneOk(f.adminPhone)
  }

  lemma RequestErrorsEmptyIff(f: Form)
    ensures RequestErrors(f).Empty() <==> RequestValid(f)
  {
    EmailNotBlank(f.adminEmail);
  }

  /** The request tab ignores the DOT and employer numbers, the employee count and
      both passwords. */
  lemma RequestErrorsIgnoreOptional(f: Form, g: Form)
    requires f.companyName == g.companyName && f.firstName == g.firstName
    requires f.lastName == g.lastName && f.adminEmail == g.adminEmail
    requires f.adminPhone == g.adminPhone
    ensures RequestErrors(f) == RequestErrors(g)
  {
  }

  /** The snackbar of a rejected request shows the message of the first failing
      check, in the order the checks run. */
  lemma RequestFirstMessage(f: Form)
    ensures RequestErrors(f).FirstMessage()
            == if IsBlank(f.companyName) then Some(CompanyNameRequired)
               else if IsBlank(f.firstName) then Some(FirstNameRequired)
               else if IsBlank(f.lastName) then Some(LastNameRequired)
               else if EmailRejected(f.adminEmail) then Some(EmailInvalid)
               else if PhoneRejected(f.adminPhone) then Some(PhoneRequired)
               else None
  {
    var e1 := NoErrors().PutIf(IsBlank(f.companyName), CompanyNameKey, CompanyNameRequired);
    PutIfFront(IsBlank(f.companyName), NoErrors(), CompanyNameKey, CompanyNameRequired);
    var e2 := e1.PutIf(IsBlank(f.firstName), FirstNameKey, FirstNameRequired);
    PutIfFront(IsBlank(f.firstName), e1, FirstNameKey, FirstNameRequired);
    var e3 := e2.PutIf(IsBlank(f.lastName), LastNameKey, LastNameRequired);
    PutIfFront(IsBlank(f.lastName), e2, LastNameKey, LastNameRequired);
    var e4 := e3.PutIf(EmailRejected(f.adminEmail), AdminEmailKey, EmailInvalid);
    PutIfFront(EmailRejected(f.adminEmail), e3, AdminEmailKey, EmailInvalid);
    PutIfFront(PhoneRejected(f.adminPhone), e4, AdminPhoneKey, PhoneRequired);
  }

  /** `validateSelfServeForm()`, in three runs of checks: the company, the contact,
      then the credentials and the optional phone. */
  function SelfServeErrors(f: Form): Errors<ErrorKey> {
    CredentialChecks(f, ContactChecks(f, CompanyChecks(f, NoErrors())))
  }

  function CompanyChecks(f: Form, e: Errors<ErrorKey>): (r: Errors<ErrorKey>)
    ensures r.Empty() <==> (e.Empty() && !IsBlank(f.companyName) && !IsBlank(f.dotNumber)
                          && !CountRejected(f.numEmployees))
    ensures forall k :: k !in {CompanyNameKey, DotNumberKey, NumEmployeesKey} ==> r.Lookup(k) == e.Lookup(k)
  {
    e
      .PutIf(IsBlank(f.companyName), CompanyNameKey, CompanyNameRequired)
      .PutIf(IsBlank(f.dotNumber), DotNumberKey, DotNumberRequired)
      .PutIf(CountRejected(f.numEmployees), NumEmployeesKey, EmployeesInvalid)
  }

  function ContactChecks(f: Form, e: Errors<ErrorKey>): (r: Errors<ErrorKey>)
    ensures r.Empty() <==> (e.Empty() && !IsBlank(f.firstName) && !IsBlank(f.lastName)
                          && !EmailRejected(f.adminEmail))
    ensures forall k :: k !in {FirstNameKey, LastNameKey, AdminEmailKey} ==> r.Lookup(k) == e.Lookup(k)
  {
    e
      .PutIf(IsBlank(f.firstName), FirstNameKey, FirstNameRequired)
      .PutIf(IsBlank(f.lastName), LastNameKey, LastNameRequired)
      .PutIf(EmailRejected(f.adminEmail), AdminEmailKey, EmailInvalid)
  }

  function CredentialChecks(f: Form, e: Errors<ErrorKey>): (r: Errors<ErrorKey>)
    ensures r.Empty() <==> (e.Empty() && !PasswordShort(f.password) && f.confirm == f.password
                          && !OptionalPhoneRejected(f.adminPhone))
    ensures forall k :: k !in {PasswordKey, ConfirmKey, AdminPhoneKey} ==> r.Lookup(k) == e.Lookup(k)
  {
    e
      .PutIf(PasswordShort(f.password), PasswordKey, PasswordTooShort)
      .PutIf(f.confirm != f.password, ConfirmKey, PasswordMismatch)
      .PutIf(OptionalPhoneRejected(f.adminPhone), AdminPhoneKey, PhoneInvalid)
  }

  /** What an immediate account needs: company name, DOT number, a whole number of
      employees, contact name, a valid email, a password of six or more characters
      typed twice alike, and a phone that passes `phoneOk` if one is given. */
  predicate SelfServeValid(f: Form) {
    !IsBlank(f.companyName) && !IsBlank(f.dotNumber) && IsInt(f.numEmployees)
    && !IsBlank(f.firstName) && !IsBlank(f.lastName) && IsValidEmail(f.adminEmail)
    && |f.password| >= 6 && f.confirm == f.password
    && (f.adminPhone == "" || PhoneOk(f.adminPhone))
  }

  lemma SelfServeErrorsEmptyIff(f: Form)
    ensures SelfServeErrors(f).Empty() <==> SelfServeValid(f)
  {
    assert SelfServeErrors(f).Empty() <==>
             !IsBlank(f.companyName) && !IsBlank(f.dotNumber) && !CountRejected(f.numEmployees)
             && !IsBlank(f.firstName) && !IsBlank(f.lastName) && !EmailRejected(f.adminEmail)
             && !PasswordShort(f.password) && f.confirm == f.password && !OptionalPhoneRejected(f.adminPhone);
    EmailNotBlank(f.adminEmail);
    IntNotBlank(f.numEmployees);
  }

  lemma IntNotBlank(v: string)
    ensures IsInt(v) ==> !IsBlank(v)
  {
    if IsInt(v) { assert IsDigit(v[0]); }
  }

  /** The self-serve phone: no error when left empty, and a message of its own when
      it is filled in wrongly. The request tab demands a phone. */
  lemma PhoneMessages(f: Form)
    ensures SelfServeErrors(f).Lookup(AdminPhoneKey)
            == if f.adminPhone != "" && !PhoneOk(f.adminPhone)
               then Some(PhoneInvalid) else None
    ensures f.adminPhone == "" ==> RequestErrors(f).Lookup(AdminPhoneKey) == Some(PhoneRequired)
  {
  }

  /** The password checks: length and the confirmation are reported separately. */
  lemma PasswordMessages(f: Form)
    ensures SelfServeErrors(f).Lookup(PasswordKey)
            == if |f.password| < 6 then Some(PasswordTooShort) else None
    ensures SelfServeErrors(f).Lookup(ConfirmKey)
            == if f.confirm != f.password then Some(PasswordMismatch) else None
  {
  }

  /** The employee count: anything but a plain run of digits is rejected. */
  lemma CountMessage(f: Form)
    ensures SelfServeErrors(f).Lookup(NumEmployeesKey)
            == if IsInt(f.numEmployees) then None else Some(EmployeesInvalid)
  {
    IntNotBlank(f.numEmployees);
  }

  // ---------------------------------------------------------------------------
  // Records written
  // ---------------------------------------------------------------------------

  datatype Contact = Contact(firstName: string, lastName: Option<string>, email: string, phone: string)

  /** A document of the company_requests collection. */
  datatype CompanyRequest = CompanyRequest(companyName: string, dotNumber: Option<string>,
                                           employerNumber: Option<string>, requestedBy: Contact,
                                           status: string)

  /** `x || null` for a string field. */
  function OrNull(s: string): (r: Option<string>)
    ensures r == None <==> s == ""
    ensures r.Some? ==> r.value == s
  {
    if s == "" then None else Some(s)
  }

  /** The request `submitCompanyRequest` adds: pending, with empty optional numbers
      stored as null. */
  function RequestRecord(f: Form): (r: CompanyRequest)
    ensures r.status == "pending" && r.companyName == f.companyName
    ensures r.dotNumber == OrNull(f.dotNumber) && r.employerNumber == OrNull(f.employerNumber)
    ensures r.requestedBy.email == f.adminEmail && r.requestedBy.phone == f.adminPhone
    ensures r.requestedBy.firstName == f.firstName
    ensures r.requestedBy.lastName == OrNull(f.lastName)
  {
    CompanyRequest(f.companyName, OrNull(f.dotNumber), OrNull(f.employerNumber),
                   Contact(f.firstName, OrNull(f.lastName), f.adminEmail, f.adminPhone), "pending")
  }

  /** A document of the companies collection. */
  datatype Company = Company(name: string, dotNumber: Option<string>, employerNumber: Option<string>,
                             numEmployees: JsNumber, createdByUid: string)

  /** A document of the admins collection, keyed by the admin's uid. */
  datatype AdminProfile = AdminProfile(uid: string, role: string, firstName: string, lastName: string,
                                       email: string, phone: Option<string>, companyId: string)

  function CompanyRecord(f: Form, uid: string): (c: Company)
    ensures c.name == f.companyName && c.createdByUid == uid
    ensures c.dotNumber == OrNull(f.dotNumber) && c.employerNumber == OrNull(f.employerNumber)
    ensures IsInt(f.numEmployees) ==> c.numEmployees == Int(DecimalValue(f.numEmployees))
  {
    Company(f.companyName, OrNull(f.dotNumber), OrNull(f.employerNumber),
            ParseNumber(f.numEmployees), uid)
  }

  function ProfileRecord(f: Form, uid: string, companyId: string): (a: AdminProfile)
    ensures a.uid == uid && a.role == "admin" && a.companyId == companyId
    ensures a.firstName == f.firstName && a.lastName == f.lastName
    ensures a.email == f.adminEmail && a.phone == OrNull(f.adminPhone)
  {
    AdminProfile(uid, "admin", f.firstName, f.lastName, f.adminEmail, OrNull(f.adminPhone), companyId)
  }

  /** The snackbar text for a failed account creation. */
  function AccountErrorMessage(code: Option<string>): (m: string)
    ensures code == Some("auth/email-already-in-use") ==> m == "This email is already in use."
    ensures code == Some("auth/invalid-email") ==> m == "Invalid email address."
    ensures code == Some("auth/weak-password") ==> m == "Password must be at least 6 characters."
  {
    if code == Some("auth/email-already-in-use") then "This email is already in use."
    else if code == Some("auth/invalid-email") then "Invalid email address."
    else if code == Some("auth/weak-password") then "Password must be at least 6 characters."
    else "Failed to create account."
  }

  const KnownCodes: set<string> := {"auth/email-already-in-use", "auth/invalid-email", "auth/weak-password"}

  /** Only the three known codes get a message of their own; every other code, and
      an error without one, gets the generic message. */
  lemma AccountErrorMessageSpec(code: Option<string>)
    ensures AccountErrorMessage(code) == "Failed to create account."
            <==> code.None? || code.value !in KnownCodes
  {
  }

  // ---------------------------------------------------------------------------
  // The page
  // ---------------------------------------------------------------------------

  /** Every step of the sign-up succeeded. */
  predicate SignedUp(account: Attempt, company: Attempt, profileWrite: Attempt) {
    account.Done? && company.Done? && profileWrite.Done?
  }

  /** The companies collection after the sign-up: the new company exists once the
      account and the company write succeeded, whatever happens to the profile. */
  function CompaniesAfter(companies: map<string, Company>, f: Form, account: Attempt, company: Attempt)
    : (r: map<string, Company>)
    ensures account.Done? && company.Done? ==> company.id in r && r[company.id] == CompanyRecord(f, account.id)
    ensures forall id :: id in companies && (account.Failed? || company.Failed? || id != company.id)
                         ==> id in r && r[id] == companies[id]
    ensures account.Failed? || company.Failed? ==> r == companies
  {
    if account.Done? && company.Done? then companies[company.id := CompanyRecord(f, account.id)]
    else companies
  }

  /** The admins collection after the sign-up: the profile exists only when every
      step succeeded, and then names the new company. */
  function AdminsAfter(admins: map<string, AdminProfile>, f: Form, account: Attempt, company: Attempt,
                       profileWrite: Attempt): (r: map<string, AdminProfile>)
    ensures SignedUp(account, company, profileWrite) ==>
              account.id in r && r[account.id] == ProfileRecord(f, account.id, company.id)
    ensures !SignedUp(account, company, profileWrite) ==> r == admins
    ensures forall uid :: uid in admins && (account.Failed? || uid != account.id) ==> uid in r && r[uid] == admins[uid]
    ensures r.Keys == if SignedUp(account, company, profileWrite) then admins.Keys + {account.id} else admins.Keys
  {
    if SignedUp(account, company, profileWrite)
    then admins[account.id := ProfileRecord(f, account.id, company.id)]
    else admins
  }

  /** The toast of a sign-up on a valid form: the message of the first failed step,
      or the success message. */
  function SignupNotice(account: Attempt, company: Attempt, profileWrite: Attempt): (n: Notice)
    ensures n.isError <==> !SignedUp(account, company, profileWrite)
    ensures account.Failed? ==> n.text == AccountErrorMessage(account.code)
    ensures account.Done? && company.Failed? ==> n.text == AccountErrorMessage(company.code)
    ensures account.Done? && company.Done? && profileWrite.Failed? ==> n.text == AccountErrorMessage(profileWrite.code)
    ensures SignedUp(account, company, profileWrite) ==> n.text == "Admin account created. Redirecting to your console…"
  {
    if account.Failed? then Notice(AccountErrorMessage(account.code), true)
    else if company.Failed? then Notice(AccountErrorMessage(company.code), true)
    else if profileWrite.Failed? then Notice(AccountErrorMessage(profileWrite.code), true)
    else Notice("Admin account created. Redirecting to your console…", false)
  }

  class Page {
    var form: Form
    var wasSubmittedRequest: bool
    var wasSubmittedSelf: bool
    var errorsRequest: Errors<ErrorKey>
    var errorsSelf: Errors<ErrorKey>
    /** The company_requests collection, in the order documents were added. */
    var requests: seq<CompanyRequest>
    var companies: map<string, Company>
    var admins: map<string, AdminProfile>
    /** The route navigated to, if any. */
    var location: Option<string>

    constructor (requests: seq<CompanyRequest>, companies: map<string, Company>,
                 admins: map<string, AdminProfile>)
      ensures form == EmptyForm && !wasSubmittedRequest && !wasSubmittedSelf
      ensures errorsRequest == NoErrors() && errorsSelf == NoErrors() && location == None
      ensures this.requests == requests && this.companies == companies && this.admins == admins
    {
      form := EmptyForm;
      wasSubmittedRequest, wasSubmittedSelf := false, false;
      errorsRequest, errorsSelf := NoErrors(), NoErrors();
      this.requests, this.companies, this.admins := requests, companies, admins;
      location := None;
    }

    /** `handlePhoneChange` */
    method HandlePhoneChange(value: string)
      modifies this
      ensures form == old(form).(adminPhone := Shown(value))
      ensures errorsRequest == old(errorsRequest) && errorsSelf == old(errorsSelf)
      ensures requests == old(requests) && companies == old(companies) && admins == old(admins)
      ensures location == old(location)
    {
      var raw := Digits(value);
      if |raw| > 10 {
        raw := raw[..10];
      }
      var formatted := FormatPhoneNumber(raw);
      form := form.(adminPhone := formatted);
    }

    /** `validateRequestForm` */
    method ValidateRequestForm() returns (errors: Errors<ErrorKey>)
      ensures errors == RequestErrors(form)
      ensures errors.Empty() <==> RequestValid(form)
    {
      errors := NoErrors();
      errors := errors.PutIf(IsBlank(form.companyName), CompanyNameKey, CompanyNameRequired);
      errors := errors.PutIf(IsBlank(form.firstName), FirstNameKey, FirstNameRequired);
      errors := errors.PutIf(IsBlank(form.lastName), LastNameKey, LastNameRequired);
      errors := errors.PutIf(EmailRejected(form.adminEmail), AdminEmailKey, EmailInvalid);
      errors := errors.PutIf(PhoneRejected(form.adminPhone), AdminPhoneKey, PhoneRequired);
      RequestErrorsEmptyIff(form);
    }

    /** `validateSelfServeForm` */
    method ValidateSelfServeForm() returns (errors: Errors<ErrorKey>)
      ensures errors == SelfServeErrors(form)
      ensures errors.Empty() <==> SelfServeValid(form)
    {
      errors := NoErrors();
      errors := errors.PutIf(IsBlank(form.companyName), CompanyNameKey, CompanyNameRequired);
      errors := errors.PutIf(IsBlank(form.dotNumber), DotNumberKey, DotNumberRequired);
      errors := errors.PutIf(CountRejected(form.numEmployees), NumEmployeesKey, EmployeesInvalid);
      assert errors == CompanyChecks(form, NoErrors());
      errors := errors.PutIf(IsBlank(form.firstName), FirstNameKey, FirstNameRequired);
      errors := errors.PutIf(IsBlank(form.lastName), LastNameKey, LastNameRequired);
      errors := errors.PutIf(EmailRejected(form.adminEmail), AdminEmailKey, EmailInvalid);
      assert errors == ContactChecks(form, CompanyChecks(form, NoErrors()));
      errors := errors.PutIf(PasswordShort(form.password), PasswordKey, PasswordTooShort);
      errors := errors.PutIf(form.confirm != form.password, ConfirmKey, PasswordMismatch);
      errors := errors.PutIf(OptionalPhoneRejected(form.adminPhone), AdminPhoneKey, PhoneInvalid);
      SelfServeErrorsEmptyIff(form);
    }

    /** `submitCompanyRequest`; `writeOk` is the outcome of `addDoc`. */
    method SubmitCompanyRequest(writeOk: bool) returns (notice: Notice)
      modifies this
      ensures form == old(form) && wasSubmittedRequest && errorsRequest == RequestErrors(form)
      ensures errorsSelf == old(errorsSelf) && wasSubmittedSelf == old(wasSubmittedSelf)
      ensures companies == old(companies) && admins == old(admins) && location == old(location)
      ensures !RequestValid(form) ==>
                requests == old(requests) && notice == Notice(errorsRequest.FirstMessage().value, true)
      ensures RequestValid(form) && writeOk ==>
                requests == old(requests) + [RequestRecord(form)]
                && notice == Notice("Request submitted. Our team will contact you shortly.", false)
      ensures RequestValid(form) && !writeOk ==>
                requests == old(requests) && notice == Notice("Failed to submit request.", true)
    {
      var errs := ValidateRequestForm();
      wasSubmittedRequest, errorsRequest := true, errs;
      if !errs.Empty() {
        return Notice(errs.FirstMessage().value, true);
      }
      if writeOk {
        requests := requests + [RequestRecord(form)];
        notice := Notice("Request submitted. Our team will contact you shortly.", false);
      } else {
        notice := Notice("Failed to submit request.", true);
      }
    }

    /** `handleSelfServeSignup`: a form that fails validation stops with its first
        message; a valid one goes on to `CreateAccount`. */
    method HandleSelfServeSignup(account: Attempt, company: Attempt, profileWrite: Attempt)
      returns (notice: Notice)
      modifies this
      ensures form == old(form) && wasSubmittedSelf && errorsSelf == SelfServeErrors(form)
      ensures errorsRequest == old(errorsRequest) && wasSubmittedRequest == old(wasSubmittedRequest)
      ensures requests == old(requests)
      ensures !SelfServeValid(form) ==>
                companies == old(companies) && admins == old(admins) && location == old(location)
                && notice == Notice(errorsSelf.FirstMessage().value, true)
      ensures SelfServeValid(form) ==>
                companies == CompaniesAfter(old(companies), form, account, company)
                && admins == AdminsAfter(old(admins), form, account, company, profileWrite)
                && location == (if SignedUp(account, company, profileWrite) then Some("/console/admin") else old(location))
                && notice == SignupNotice(account, company, profileWrite)
    {
      var errs := ValidateSelfServeForm();
      wasSubmittedSelf, errorsSelf := true, errs;
      if !errs.Empty() {
        return Notice(errs.FirstMessage().value, true);
      }
      notice := CreateAccount(account, company, profileWrite);
    }

    /** The writes of `handleSelfServeSignup` on a valid form: the account, then the
        company (whose new id `company` yields), then the profile under the account's
        uid. A failure stops the sequence where it happens; what was written before it
        stays. */
    method CreateAccount(account: Attempt, company: Attempt, profileWrite: Attempt)
      returns (notice: Notice)
      modifies this
      ensures form == old(form) && errorsSelf == old(errorsSelf) && errorsRequest == old(errorsRequest)
      ensures wasSubmittedSelf == old(wasSubmittedSelf) && wasSubmittedRequest == old(wasSubmittedRequest)
      ensures requests == old(requests)
      ensures companies == CompaniesAfter(old(companies), form, account, company)
      ensures admins == AdminsAfter(old(admins), form, account, company, profileWrite)
      ensures location == if SignedUp(account, company, profileWrite) then Some("/console/admin") else old(location)
      ensures notice == SignupNotice(account, company, profileWrite)
    {
      if account.Failed? {
        return Notice(AccountErrorMessage(account.code), true);
      }
      var uid := account.id;
      if company.Failed? {
        return Notice(AccountErrorMessage(company.code), true);
      }
      companies := companies[company.id := CompanyRecord(form, uid)];
      if profileWrite.Failed? {
        return Notice(AccountErrorMessage(profileWrite.code), true);
      }
      admins := admins[uid := ProfileRecord(form, uid, company.id)];
      notice := Notice("Admin account created. Redirecting to your console…", false);
      location := Some("/console/admin");
    }
  }
}
