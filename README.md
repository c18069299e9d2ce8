# FleetPro console core, modelled in Dafny

This project models the core of a trucking-company console. The console is a React
front end over a Firestore database. The model covers:

- **the utilities:** the US phone formatter and the email, licence-number and SSN
  patterns; the "today or earlier" / "today or later" date checks;
- **the admin pages:** the truck, trailer, route and trip dialogs and the lists
  they feed (Trucks, Trailers, RoutesPage, Drivers, Trips, with their search,
  status chips and odometer editing);
- **the signup pages:** the admin signup page (a company request, or a
  self-serve account), the superadmin signup page (email, or a phone one-time
  code), and the driver signup page that redeems an invitation link;
- **the superadmin pages:** the invitation form, the company-request list and
  its edit dialog, and the dashboard that marks new-request notifications read.

Each source file is one module. Each component is modelled as follows:

- A component that keeps state is a `class`. Its fields are the component's
  state, plus the Firestore collections it writes, as maps or sequences.
- Its event handlers are methods. Each method states the whole new state and
  what the user is told (the snackbar, toast or alert text).
- Everything the page receives from outside is a method parameter: the outcome
  of each Firebase call, the new document id, the signed-in user, the clock and
  the random draws.
- Each validator is a pure function (`TruckErrors(form)` and so on) that returns
  an insertion-ordered error object. The matching `Validate` method builds that
  object check by check and is proved equal to the function. Lemmas then state
  when the object is empty, which message each field gets, and which message is
  shown first.
- The JavaScript built-ins the core relies on are modelled in module `Js`:
  `trim`, `toLowerCase`, `includes`, `Number(...)` on digit strings, `x || d`, and
  the key order of an object.

## Model

| member | source | states |
|---|---|---|
| Validators.FormatPhoneNumber | src/utils/validators.ts:2-14 | computes the formatter's value step by step; for at most ten digits the result keeps exactly the input's digits; with more, the input is returned unchanged |
| Validators.PhoneMatch | src/utils/validators.ts:5-6 | the pattern fails exactly when no split of the digits into groups of 0-3, 0-3, 0-4 exists; otherwise the greedy split is a valid one and no valid split has a longer first group or, with the same first group, a longer second one |
| Validators.PhoneFormatShapes | src/utils/validators.ts:7-13 | the four layouts: "", "(d", "(ddd) d…", "(ddd) ddd-d…" by number of digits |
| Validators.DigitsOfLayout | src/utils/validators.ts:7-13 | the layout adds no digit and keeps the groups' digits in order |
| Validators.PhoneDigitsPreserved | src/utils/validators.ts:2-14 | formatting at most ten digits keeps exactly those digits |
| Validators.PhoneFormatIdempotent | src/utils/validators.ts:2-14 | formatting a formatted number changes nothing |
| Validators.PhoneTenDigits | src/utils/validators.ts:2-14 | ten digits give "(ddd) ddd-dddd", 14 characters |
| Validators.PhoneTooLong | src/utils/validators.ts:5-6 | more than ten digits: no split matches and the value comes back as typed |
| Validators.PhoneOpenParen | src/utils/validators.ts:8 | the output opens with "(" iff there is at least one digit |
| Validators.PhoneCloseParen | src/utils/validators.ts:9 | ") " appears iff the first group is complete (3+ digits) |
| Validators.PhoneDash | src/utils/validators.ts:11 | "-" appears iff the second group is complete (6+ digits) |
| Validators.EmailPatternShape | src/utils/validators.ts:17-19 | the pattern accepts exactly strings with one "@", not first, no whitespace, and a dot after the character following "@" with something after it |
| Validators.IsValidLicenseNumber | src/utils/validators.ts:22-24 | true iff the value is non-empty and every character is an upper-case letter or a digit |
| Validators.SSNRoundTrip | src/utils/validators.ts:26-28 | a value passes iff it is its own nine digits laid out as ddd-dd-dddd |
| DateValidators.ParseIsoDate | src/utils/dateValidators.ts:11 | only the YYYY-MM-DD rendering of a date that exists parses, and it parses to that date's day number |
| DateValidators.IsoDateParses | src/utils/dateValidators.ts:11 | every existing date of a four-digit year, written as YYYY-MM-DD, parses to its own day number |
| DateValidators.NextDateSpec | src/utils/dateValidators.ts:11 | the day after an existing date exists and its day number is one more, so the day numbering has no gaps or repeats |
| DateValidators.YearLength | src/utils/dateValidators.ts:11 | the year that ends with February of `y` has 366 days exactly when `y` is a leap year |
| DateValidators.TodayRejectedWestOfUtc | src/utils/dateValidators.ts:20-27 | west of UTC, the truncation moves a date-only value to the previous day, so today fails `isFutureOrToday` |
| DateValidators.InsuranceExpiringTodayRejected | src/utils/dateValidators.ts:20-27 | concretely: "2026-10-15" entered on that day at UTC-4 fails `isFutureOrToday` |
| DateValidators.AsWrittenKeepsDayEastOfUtc | src/utils/dateValidators.ts:11-12 | at or east of UTC the truncation keeps the written day |
| DateValidators.DatePredicatesCover | src/utils/dateValidators.ts:7-27 | the empty value fails both checks; every valid date passes at least one; both hold exactly on today |
| DateValidators.IntendedMatchesAsWrittenEastOfUtc | src/utils/dateValidators.ts:7-27 | the calendar-day checks agree with the written ones in every zone at or east of UTC |
| PhoneField.KeptDigits | src/components/Auth/admin-signup-auth.tsx:56-62 | the kept text is digits only, at most ten, and is the first ten digits typed |
| PhoneField.ShownSpec | src/components/Auth/admin-signup-auth.tsx:56-65 | the field shows exactly the kept digits; re-typing its own text changes nothing |
| PhoneField.ShownTenDigits | src/components/Auth/admin-signup-auth.tsx:56-65 | with ten or more digits typed the field shows "(ddd) ddd-dddd" of the first ten |
| AdminSignup.ShownPhoneOk | src/components/Auth/admin-signup-auth.tsx:23 | a formatted phone passes `phoneOk` iff it holds at least four digits |
| AdminSignup.EmailNotBlank | src/components/Auth/admin-signup-auth.tsx:73 | an address the pattern accepts is never blank, so the `trim()` guard adds nothing |
| AdminSignup.RequestErrorsEmptyIff | src/components/Auth/admin-signup-auth.tsx:67-76 | the request form has no error iff company, first and last name are filled, the email is valid and the phone is non-blank and passes `phoneOk` |
| AdminSignup.RequestErrorsIgnoreOptional | src/components/Auth/admin-signup-auth.tsx:67-76 | the request validation reads only those five fields |
| AdminSignup.RequestFirstMessage | src/components/Auth/admin-signup-auth.tsx:98-99 | the snackbar shows the first failing check's message, in check order |
| AdminSignup.CompanyChecks | src/components/Auth/admin-signup-auth.tsx:80-82 | no error added iff company, DOT number and a whole employee count are given; other keys untouched |
| AdminSignup.ContactChecks | src/components/Auth/admin-signup-auth.tsx:83-85 | no error added iff both names and a valid email are given; other keys untouched |
| AdminSignup.CredentialChecks | src/components/Auth/admin-signup-auth.tsx:86-89 | no error added iff the password has 6+ characters, the confirmation matches and the optional phone is empty or passes; other keys untouched |
| AdminSignup.SelfServeErrorsEmptyIff | src/components/Auth/admin-signup-auth.tsx:78-91 | the self-serve form has no error iff every required field is valid |
| AdminSignup.IntNotBlank | src/components/Auth/admin-signup-auth.tsx:82 | a whole number is never blank |
| AdminSignup.PhoneMessages | src/components/Auth/admin-signup-auth.tsx:74-89 | the self-serve phone errs only when filled and malformed; an empty phone fails the request form |
| AdminSignup.PasswordMessages | src/components/Auth/admin-signup-auth.tsx:86-87 | the length and the confirmation have separate messages, each exactly when it fails |
| AdminSignup.CountMessage | src/components/Auth/admin-signup-auth.tsx:82 | the employee count errs iff it is not a run of digits |
| AdminSignup.OrNull | src/components/Auth/admin-signup-auth.tsx:106 | a value or null: null exactly for the empty string |
| AdminSignup.RequestRecord | src/components/Auth/admin-signup-auth.tsx:104-116 | the request is stored pending, with the form's fields and empty optional numbers as null |
| AdminSignup.CompanyRecord | src/components/Auth/admin-signup-auth.tsx:142-149 | the company carries the name, the creator's uid and the employee count read as a number |
| AdminSignup.ProfileRecord | src/components/Auth/admin-signup-auth.tsx:152-161 | the profile is an admin of the new company, under the account's uid, with the typed first and last name and email, and the phone or null |
| AdminSignup.AccountErrorMessage | src/components/Auth/admin-signup-auth.tsx:166-171 | each of the three known error codes gets its message |
| AdminSignup.AccountErrorMessageSpec | src/components/Auth/admin-signup-auth.tsx:166-171 | the generic message appears iff the code is missing or not one of the three |
| AdminSignup.CompaniesAfter | src/components/Auth/admin-signup-auth.tsx:139-149 | the company exists once the account and company writes succeeded, and no other company changes |
| AdminSignup.AdminsAfter | src/components/Auth/admin-signup-auth.tsx:152-161 | the profile is added under the account's uid only when every step succeeded; every other profile is unchanged and no other key appears |
| AdminSignup.SignupNotice | src/components/Auth/admin-signup-auth.tsx:163-171 | the toast is an error iff some step failed; its text is the mapped message of the first failed step's code, or the success text |
| AdminSignup.Page.constructor | src/components/Auth/admin-signup-auth.tsx:33-54 | the page starts empty, with no errors shown |
| AdminSignup.Page.HandlePhoneChange | src/components/Auth/admin-signup-auth.tsx:56-65 | the phone becomes the formatted first ten digits; nothing else changes |
| AdminSignup.Page.ValidateRequestForm | src/components/Auth/admin-signup-auth.tsx:67-76 | builds the error object check by check; it equals the validator function and is empty iff the form is valid |
| AdminSignup.Page.ValidateSelfServeForm | src/components/Auth/admin-signup-auth.tsx:78-91 | the same for the self-serve form |
| AdminSignup.Page.SubmitCompanyRequest | src/components/Auth/admin-signup-auth.tsx:94-126 | an invalid form writes nothing and shows its first message; a valid one appends the pending request, or reports the failed write |
| AdminSignup.Page.HandleSelfServeSignup | src/components/Auth/admin-signup-auth.tsx:128-135 | an invalid form writes nothing and shows its first message; a valid one goes on to the account creation |
| AdminSignup.Page.CreateAccount | src/components/Auth/admin-signup-auth.tsx:137-172 | account, company and profile are written in order; a failure stops there and keeps earlier writes; only full success navigates to the admin console |
| SuperadminSignup.RawPhoneSpec | src/components/Auth/superadmin-signup-auth.tsx:128-138 | the login number is "+1" and at most ten digits, exactly the digits the field shows |
| SuperadminSignup.LoggedInSpec | src/components/Auth/superadmin-signup-auth.tsx:83-89 | the login merge sets `lastLogin` and keeps every other field of the record |
| SuperadminSignup.OtpErrorMessage | src/components/Auth/superadmin-signup-auth.tsx:109-118 | the second toast of a failed code check, per error code, with the default for any other code |
| SuperadminSignup.SignupRejection | src/components/Auth/superadmin-signup-auth.tsx:34-35 | no rejection iff the email passes the pattern and the password has 6+ characters; the email is checked first |
| SuperadminSignup.Page.constructor | src/components/Auth/superadmin-signup-auth.tsx:22-32 | the page starts empty, with no code sent and the code button disabled |
| SuperadminSignup.Page.SetCredentials | src/components/Auth/superadmin-signup-auth.tsx:22-23 | the two inputs set email and password and nothing else |
| SuperadminSignup.Page.HandlePhoneChange | src/components/Auth/superadmin-signup-auth.tsx:128-138 | the field shows the formatted first ten digits and the login number is "+1" and those digits |
| SuperadminSignup.Page.SendOtp | src/components/Auth/superadmin-signup-auth.tsx:37-51 | a sent code records the confirmation and enables the code button; a failed send changes nothing and shows an error |
| SuperadminSignup.Page.VerifyOtp | src/components/Auth/superadmin-signup-auth.tsx:68-120 | without a sent code nothing happens but a toast; a failure shows two error toasts and writes nothing; a confirmed code logs an existing superadmin in (merging `lastLogin`) or creates the record under the login number, then opens the superadmin console with "✅ Superadmin logged in" or "🎉 Superadmin account created" respectively |
| SuperadminSignup.Page.HandleSignup | src/components/Auth/superadmin-signup-auth.tsx:140-158 | a rejected form writes nothing and shows its message; otherwise the record is written under the new uid and the page goes to "/", or "Signup failed." with nothing written |
| DriverSignup.InvitedBy | src/components/Auth/driver-signup-auth.tsx:57 | the inviter when present and non-empty, else null |
| DriverSignup.DriverRecord | src/components/Auth/driver-signup-auth.tsx:54-59 | the driver record carries the email, the invite's company and its inviter or null |
| DriverSignup.RedeemedSpec | src/components/Auth/driver-signup-auth.tsx:62-66 | redemption marks that one invite used by the uid, keeps its company and inviter, touches no other invite, and leaves the token unusable for every later load |
| DriverSignup.SignupRejection | src/components/Auth/driver-signup-auth.tsx:47-49 | no rejection iff the invite is valid and loaded, the email is valid and the password has 6+ characters, checked in that order |
| DriverSignup.Page.constructor | src/components/Auth/driver-signup-auth.tsx:19-26 | the page starts with the link's token, no verdict and no invite |
| DriverSignup.Page.SetCredentials | src/components/Auth/driver-signup-auth.tsx:24-25 | the two inputs set email and password and nothing else |
| DriverSignup.Page.LoadInvite | src/components/Auth/driver-signup-auth.tsx:28-40 | without a token the verdict is "not usable"; a failed read changes nothing; otherwise the verdict is "usable" iff the token names an unused invite, and a usable invite is loaded; nothing is written |
| DriverSignup.Page.HandleSignup | src/components/Auth/driver-signup-auth.tsx:45-73 | a rejection writes nothing; otherwise the driver record is written once the account exists, the invite is redeemed only when that write succeeded, and only a redeemed invite navigates to "/" |
| Forms.FieldOr | src/components/modals/TruckModal.tsx:64-75 | the record's value when present and non-empty, else the default |
| Forms.EditId | src/components/modals/TruckModal.tsx:143 | `truckData?.id` is taken only when the dialog edits a record with a non-empty id, and always then |
| Forms.Written | src/components/modals/TruckModal.tsx:143-153 | a save changes exactly one record, the edited one or a new one under the fresh id; that record holds every field of the form, and an edited record keeps its other fields and gains no others |
| Forms.FourDigitsNotBlank | src/components/modals/TruckModal.tsx:103-107 | a four-digit year is never blank |
| TruckModal.Changed | src/components/modals/TruckModal.tsx:133-136 | the named field takes the typed value |
| TruckModal.ChangedSpec | src/components/modals/TruckModal.tsx:133-136 | an input changes its own field and no other |
| TruckModal.PrefillSpec | src/components/modals/TruckModal.tsx:62-76 | every field takes the record's non-empty value, else the new-truck default ("Diesel", "Active", "") |
| TruckModal.PrefillAsDoc | src/components/modals/TruckModal.tsx:62-76 | reopening a saved truck shows the saved form iff its fuel type and status were not cleared |
| TruckModal.YearError | src/components/modals/TruckModal.tsx:103-107 | no year error iff four digits; "required" iff blank; "4-digit" iff filled but malformed |
| TruckModal.TruckErrorsEmptyIff | src/components/modals/TruckModal.tsx:97-114 | `validate` answers true iff make, model and plate are filled and the year is four digits |
| TruckModal.TruckErrorMessages | src/components/modals/TruckModal.tsx:100-110 | each checked field carries its own message exactly when it fails |
| TruckModal.Dialog.constructor | src/components/modals/TruckModal.tsx:41-58 | the dialog starts on the blank form with no errors |
| TruckModal.Dialog.Open | src/components/modals/TruckModal.tsx:61-94 | an edit prefills the form from the record; a new truck resets the form and clears the errors |
| TruckModal.Dialog.HandleChange | src/components/modals/TruckModal.tsx:133-136 | the form changes in the named field only |
| TruckModal.Dialog.Validate | src/components/modals/TruckModal.tsx:97-114 | builds the error object check by check, equal to the validator function; the answer is true iff the form is valid |
| TruckModal.Dialog.HandleSave | src/components/modals/TruckModal.tsx:139-160 | saves iff the form is valid, the write succeeds and an edited record still exists; a save merges or adds exactly the form; otherwise the store is unchanged |
| TrailerModal.Changed | src/components/modals/TrailerModal.tsx:128-131 | the named field takes the typed value |
| TrailerModal.ChangedSpec | src/components/modals/TrailerModal.tsx:128-131 | an input changes its own field and no other |
| TrailerModal.OverlaySpec | src/components/modals/TrailerModal.tsx:68-69 | `{ ...form, ...trailerData }`: the record's fields win, even empty ones; a field the record lacks keeps the current form's value |
| TrailerModal.OverlayAsDoc | src/components/modals/TrailerModal.tsx:68-69 | reopening a saved trailer shows exactly the saved form, whatever form was open before |
| TrailerModal.TrailerErrorsEmptyIff | src/components/modals/TrailerModal.tsx:104-126 | `validate` answers true iff every required field is filled, the year is four digits and each filled date passes the written date check at the clock's day and UTC offset |
| TrailerModal.TrailerIdentityMessages | src/components/modals/TrailerModal.tsx:106-109 | make and model err iff blank; the year errs iff it is not four digits |
| TrailerModal.TrailerRegistrationMessages | src/components/modals/TrailerModal.tsx:110-112 | trailer number, type and plate err iff blank |
| TrailerModal.TrailerSizeMessages | src/components/modals/TrailerModal.tsx:113-114 | length and capacity err iff blank |
| TrailerModal.TrailerDateMessages | src/components/modals/TrailerModal.tsx:115-123 | a date errs iff it is filled and fails the written check at the clock's offset: `isPastOrToday` for maintenance and inspection, `isFutureOrToday` for insurance |
| TrailerModal.TrailerDatesEastOfUtc | src/components/modals/TrailerModal.tsx:115-123 | at or east of UTC the dialog's date checks are the calendar-day comparisons with today |
| TrailerModal.ExpiryTodayRejectedWestOfUtc | src/components/modals/TrailerModal.tsx:121-123 | west of UTC an insurance expiry of today is rejected and the form is invalid |
| TrailerModal.Dialog.constructor | src/components/modals/TrailerModal.tsx:43-61 | the dialog starts on the new-trailer form ("Available") with no errors |
| TrailerModal.Dialog.Open | src/components/modals/TrailerModal.tsx:67-89 | an edit lays the record over the current form; a new trailer resets the form; the errors stay |
| TrailerModal.Dialog.HandleChange | src/components/modals/TrailerModal.tsx:128-131 | the form changes in the named field only |
| TrailerModal.Dialog.Validate | src/components/modals/TrailerModal.tsx:104-126 | builds the error object check by check, equal to the validator function; the answer is true iff the form is valid |
| TrailerModal.Dialog.HandleSave | src/components/modals/TrailerModal.tsx:133-154 | saves iff the form is valid, the write succeeds and an edited record still exists; a save merges or adds exactly the form; otherwise the store is unchanged |
| RouteModal.Changed | src/components/modals/RouteModal.tsx:102-105 | the named field takes the typed value; the route name is never touched directly |
| RouteModal.ChangedSpec | src/components/modals/RouteModal.tsx:102-105 | an input changes its own field and no other |
| RouteModal.PrefillSpec | src/components/modals/RouteModal.tsx:51-63 | reopening a saved route shows the saved form; an empty record opens as a new route |
| RouteModal.RouteName | src/components/modals/RouteModal.tsx:86 | the name is the pickup city, " → " and the drop-off city |
| RouteModal.RouteNameSplitAtPickup | src/components/modals/RouteModal.tsx:86 | two names built from pickup cities of the same length are equal only for the same pair of cities |
| RouteModal.RouteNameAmbiguous | src/components/modals/RouteModal.tsx:86 | a city containing " → " makes two different pairs share a name |
| RouteModal.AutoNamed | src/components/modals/RouteModal.tsx:82-89 | the effect changes at most the route name, and only to the two cities' name |
| RouteModal.AutoNamedSpec | src/components/modals/RouteModal.tsx:82-89 | the effect renames the route iff a city changed and both are filled in; without a city change the form is untouched |
| RouteModal.EditedSpec | src/components/modals/RouteModal.tsx:82-105 | only a city input can rename the route; changing a city while both are filled names the route after them |
| RouteModal.RouteErrorsEmptyIff | src/components/modals/RouteModal.tsx:92-100 | `validate` answers true iff both cities and both states are filled in |
| RouteModal.RouteErrorMessages | src/components/modals/RouteModal.tsx:94-97 | each checked field errs iff blank, with its own message |
| RouteModal.RouteFirstMessage | src/components/modals/RouteModal.tsx:94 | the pickup city's message is first whenever it is blank |
| RouteModal.Dialog.constructor | src/components/modals/RouteModal.tsx:33-47 | the dialog starts on the empty form with no errors |
| RouteModal.Dialog.Open | src/components/modals/RouteModal.tsx:50-89 | an edit prefills the form from the record, a new route resets it and clears the errors; then the naming effect runs |
| RouteModal.Dialog.HandleChange | src/components/modals/RouteModal.tsx:82-105 | the named field changes, then the naming effect runs |
| RouteModal.Dialog.Validate | src/components/modals/RouteModal.tsx:92-100 | builds the error object check by check, equal to the validator function; the answer is true iff the form is valid |
| RouteModal.Dialog.HandleSave | src/components/modals/RouteModal.tsx:107-128 | saves iff the form is valid, the write succeeds and an edited record still exists; a save merges or adds exactly the form; otherwise the store is unchanged |
| TripModal.NewTrip | src/components/modals/TripModal.tsx:139-160 | a new trip is "Scheduled", numbered as given, with no route, driver, truck or trailer, empty route details and no trip miles |
| TripModal.Set | src/components/modals/TripModal.tsx:194 | `{ ...prev, [name]: value }`: the named field takes the value and every other field is kept |
| TripModal.TripMiles | src/components/modals/TripModal.tsx:203-207 | the trip miles are a non-negative number exactly when both readings are numbers and the end is not below the start, and then start + miles = end; otherwise "" |
| TripModal.Changed | src/components/modals/TripModal.tsx:192-211 | the named field takes the typed text and no other input field changes; the trip number, route, driver and route details stay; the trip miles change only for a reading, and then become "" or a non-negative number |
| TripModal.ChangedOtherField | src/components/modals/TripModal.tsx:194-210 | editing a field other than the readings replaces exactly that field and leaves the trip miles alone |
| TripModal.ChangedReading | src/components/modals/TripModal.tsx:196-208 | editing a reading stores it and recomputes the trip miles from the new value and the other reading; the result is never negative |
| TripModal.ReadingOfText | src/components/modals/TripModal.tsx:199-201 | a non-empty text reading is read like `Number(x)`, an empty one as 0 |
| TripModal.MissingEndCountsAsZero | src/components/modals/TripModal.tsx:198-201 | with no end reading, a start of k gives trip miles only for k <= 0 |
| TripModal.TripErrorsEmptyIff | src/components/modals/TripModal.tsx:244-262 | `validate` answers true iff trip number, driver, truck, route, both dates and the start reading are given and the end date is not before the start date |
| TripModal.TripAssignmentMessages | src/components/modals/TripModal.tsx:246-248 | trip number, driver and truck err iff blank, each with its own message |
| TripModal.TripRouteMessages | src/components/modals/TripModal.tsx:249-258 | route and start reading err iff blank, each with its own message |
| TripModal.TripDateMessages | src/components/modals/TripModal.tsx:251-255 | the start date errs iff empty; the end date says "required" when empty, else "cannot be before" when the end sorts before the start |
| TripModal.NextTripNumber | src/components/modals/TripModal.tsx:117-124 | the next number is "FP-<year>-<count+1>", also for an empty collection |
| TripModal.NextTripNumberInjective | src/components/modals/TripModal.tsx:117-124 | within a year, different trip counts give different numbers |
| TripModal.DetailsOf | src/components/modals/TripModal.tsx:227-238 | the copied addresses, cities and states are the route's, a missing or empty one as "" |
| TripModal.RouteSelected | src/components/modals/TripModal.tsx:215-241 | "__new__" clears the route; a known id stores it with that route's details; an unknown id changes nothing |
| TripModal.RouteMenuChanged | src/components/modals/TripModal.tsx:408-425 | the menu's "__new__" entry sets the route to it, clears the copied details and keeps every other field; any other entry goes to the route handler |
| TripModal.TruckName | src/components/modals/TripModal.tsx:288 | the truck's name is make, a space and model; a missing part renders as "undefined", so the name is never empty |
| TripModal.DriverSelectedAsWritten | src/components/modals/TripModal.tsx:270-308 | the handler as written: the driver is stored; a driver id that is no document id clears truck and trailer and fills nothing |
| TripModal.AsWrittenMissesAssignedTruck | src/components/modals/TripModal.tsx:270-308 | as written, a driver picked by licence number (the menu's value) is not found by document id, so the assigned truck is not filled in |
| TripModal.AsWrittenPairsUnassignedTrailer | src/components/modals/TripModal.tsx:297-299 | as written, a truck without a number is paired with a trailer assigned to no truck |
| TripModal.DriverSelectedSpec | src/components/modals/TripModal.tsx:270-308 | picking a driver stores it and clears truck and trailer; the truck is filled iff a driver has that licence and a truck is assigned to it, and it is the first such truck; a trailer only comes with a numbered truck and is assigned to that number; nothing else changes |
| TripModal.DriverSelectedMatchesAsWritten | src/components/modals/TripModal.tsx:270-308 | when driver ids equal licence numbers and every truck has a number, the corrected handler agrees with the written one |
| TripModal.Dialog.Open | src/components/modals/TripModal.tsx:137-164 | a new-trip dialog starts on the blank form numbered from the year and trip count, with no errors and no new route |
| TripModal.Dialog.HandleChange | src/components/modals/TripModal.tsx:189-212 | the form becomes the updater's result, field by field with the mileage recomputation |
| TripModal.Dialog.Validate | src/components/modals/TripModal.tsx:244-262 | builds the error object check by check, equal to the validator function; the answer is true iff the form is complete |
| TripModal.Dialog.HandleRouteSelect | src/components/modals/TripModal.tsx:215-241 | the form becomes the route-select result; "__new__" marks a new route |
| TripModal.Dialog.OnRouteMenuChange | src/components/modals/TripModal.tsx:408-425 | the form becomes the menu-change result; "__new__" marks a new route |
| TripModal.Dialog.HandleDriverSelect | src/components/modals/TripModal.tsx:270-308 | up to three successive updates give the driver-select result as written: lookup by document id, trailer matched by `assignedTruckNumber === truckNumber` |
| Trips.MissingReadingsAreZero | src/components/layouts/admin-layouts/Trips.tsx:60-61 | a missing start reading and an empty draft both read as 0 |
| Trips.Minus | src/components/layouts/admin-layouts/Trips.tsx:68 | the difference is a number exactly when both readings are, and then start + difference = end |
| Trips.StartReading | src/components/layouts/admin-layouts/Trips.tsx:60 | a missing, null or empty start reading reads as 0, a falsy number as 0, a string as `Number(...)` of it |
| Trips.EndReading | src/components/layouts/admin-layouts/Trips.tsx:61 | an empty draft reads as 0, a typed one as `Number(...)` of it |
| Trips.AcceptedAsWrittenSpec | src/components/layouts/admin-layouts/Trips.tsx:63-66 | the written guard (rejecting on `isNaN(end)` or `end < start`) passes exactly a numeric end not below a numeric start, or any numeric end when the start is NaN |
| Trips.SeparatorIsNaN | src/components/layouts/admin-layouts/Trips.tsx:60 | a reading typed with a thousands separator is not a number |
| Trips.ReadingOf150500 | src/components/layouts/admin-layouts/Trips.tsx:61 | a plain digit reading is that number |
| Trips.AsWrittenStoresNaNMiles | src/components/layouts/admin-layouts/Trips.tsx:60-68 | as written, a start reading that is not a number passes the guard and the trip miles become NaN |
| Trips.AcceptedSpec | src/components/layouts/admin-layouts/Trips.tsx:63-68 | the corrected guard agrees with the written one whenever the start is a number; an accepted save yields a whole number of miles >= 0, 0 for equal readings |
| Trips.WithOdometer | src/components/layouts/admin-layouts/Trips.tsx:71-81 | the save writes the end reading and the trip miles (possibly NaN) and keeps every other field |
| Trips.UpdatedList | src/components/layouts/admin-layouts/Trips.tsx:78-84 | the list keeps its length; the trip with the saved id gets the two new fields; every other trip is unchanged |
| Trips.UpdatedListKeepsIds | src/components/layouts/admin-layouts/Trips.tsx:78-84 | the update keeps every id in place and is idempotent |
| Trips.FilteredTrips | src/components/layouts/admin-layouts/Trips.tsx:108-114 | a trip is listed iff its lowercased status is the tab and the search occurs in its number, driver or route, ignoring case |
| Trips.FilteredTripsSpec | src/components/layouts/admin-layouts/Trips.tsx:108-114 | the listed trips keep the list's order, and the case of the search text does not matter |
| Trips.TripShownCases | src/components/layouts/admin-layouts/Trips.tsx:108-114 | a trip without a status, or without all three searched fields, is never listed; "Completed" is listed under the "completed" tab |
| Trips.TripsPage.constructor | src/components/layouts/admin-layouts/Trips.tsx:36-43 | the page starts with no trip being edited and an empty draft |
| Trips.TripsPage.StartEditing | src/components/layouts/admin-layouts/Trips.tsx:48-51 | editing starts on the trip's end reading, or "" |
| Trips.TripsPage.SetDraft | src/components/layouts/admin-layouts/Trips.tsx:319 | typing sets the draft to the typed text and changes nothing else |
| Trips.TripsPage.CancelEditing | src/components/layouts/admin-layouts/Trips.tsx:53-56 | cancelling resets the editor and writes nothing |
| Trips.TripsPage.SaveOdometer | src/components/layouts/admin-layouts/Trips.tsx:58-94 | rejects exactly what the written guard rejects (a NaN end, or end < start); a rejected reading or a failed write changes nothing; an accepted save writes end reading and miles (end - start, NaN when the start is not a number, otherwise >= 0) to the record and the list, and resets the editor |
| Trucks.FilteredTrucks | src/components/layouts/admin-layouts/Trucks.tsx:46-51 | a truck is listed iff its make, model or plate number contains the search, ignoring case |
| Trucks.FilteredTrucksSpec | src/components/layouts/admin-layouts/Trucks.tsx:46-51 | the listed trucks keep the list's order, and the case of the search text does not matter |
| Trucks.TruckShownCases | src/components/layouts/admin-layouts/Trucks.tsx:46-51 | a truck with none of the three fields is never listed; one with a make is listed for an empty search |
| Trucks.ChipLabel | src/components/layouts/admin-layouts/Trucks.tsx:140 | the chip shows the status, or "inactive" when it is missing or empty |
| Trucks.ChipColorAsWritten | src/components/layouts/admin-layouts/Trucks.tsx:141-149 | as written, success iff the status is exactly "active", warning iff exactly "maintenance", info iff exactly "on trip" |
| Trucks.SavedStatusesUncoloured | src/components/layouts/admin-layouts/Trucks.tsx:141-149 | as written, none of the statuses the truck dialog saves gets a colour of its own |
| Trucks.ChipColor | src/components/layouts/admin-layouts/Trucks.tsx:141-149 | corrected: success iff the lowercased status is "active", warning iff "maintenance", info iff "on trip", the default otherwise |
| Trucks.ChipColorSpec | src/components/layouts/admin-layouts/Trucks.tsx:141-149 | corrected, the three saved statuses get three different colours and the lowercase statuses keep theirs |
| Trailers.FilteredTrailers | src/components/layouts/admin-layouts/Trailers.tsx:50-55 | a trailer is listed iff its make, model or trailer number contains the search, ignoring case |
| Trailers.FilteredTrailersSpec | src/components/layouts/admin-layouts/Trailers.tsx:50-55 | the listed trailers keep the list's order, and the case of the search text does not matter |
| Trailers.TrailerShownCases | src/components/layouts/admin-layouts/Trailers.tsx:50-55 | a trailer with none of the three fields is never listed; one with a number is listed for an empty search |
| Trailers.TrailerIconAsWritten | src/components/layouts/admin-layouts/Trailers.tsx:57-68 | as written, the snowflake iff the lowercased type is "refrigerated", boxes iff "dry van", layers iff "flatbed", the truck otherwise |
| Trailers.ReeferGetsDefaultIcon | src/components/layouts/admin-layouts/Trailers.tsx:57-68 | as written, the saved type "Refrigerated (Reefer)" gets the default icon while "Dry Van" and "Flatbed" get theirs |
| Trailers.TrailerIcon | src/components/layouts/admin-layouts/Trailers.tsx:57-68 | corrected: the snowflake iff the lowercased type is "refrigerated" or "refrigerated (reefer)", boxes iff "dry van", layers iff "flatbed", the truck otherwise |
| Trailers.TrailerIconSpec | src/components/layouts/admin-layouts/Trailers.tsx:57-68 | corrected, the refrigerated, dry-van and flatbed types get their own icons |
| Trailers.TrailerIconDefault | src/components/layouts/admin-layouts/Trailers.tsx:65-66 | the tanker and lowboy types get the default icon |
| Trailers.ChipLabel | src/components/layouts/admin-layouts/Trailers.tsx:159 | the chip shows the status, or "available" when it is missing or empty |
| Trailers.ChipToneAsWritten | src/components/layouts/admin-layouts/Trailers.tsx:163-166 | as written, blue iff the status is exactly "in use", green otherwise |
| Trailers.InUseShownGreen | src/components/layouts/admin-layouts/Trailers.tsx:163-166 | as written, the saved status "In Use" is shown green, the same as "Available" |
| Trailers.ChipTone | src/components/layouts/admin-layouts/Trailers.tsx:163-166 | the corrected tone is blue exactly for a status that lowercases to "in use" |
| Trailers.ChipToneSpec | src/components/layouts/admin-layouts/Trailers.tsx:163-166 | corrected, the two saved statuses get different tones and "in use" keeps its tone |
| RoutesPage.FilteredRoutes | src/components/layouts/admin-layouts/RoutesPage.tsx:46-51 | a route is listed iff its name, pickup city or drop-off city contains the search, ignoring case |
| RoutesPage.FilteredRoutesSpec | src/components/layouts/admin-layouts/RoutesPage.tsx:46-51 | the listed routes keep the list's order, and the case of the search text does not matter |
| RoutesPage.RouteShownCases | src/components/layouts/admin-layouts/RoutesPage.tsx:46-51 | a route with none of the three fields is never listed; one with a name is listed for an empty search |
| RoutesPage.Without | src/components/layouts/admin-layouts/RoutesPage.tsx:55 | deleting removes exactly the routes with that id |
| RoutesPage.WithoutSpec | src/components/layouts/admin-layouts/RoutesPage.tsx:55 | deleting keeps the other routes in order; deleting a missing id or deleting twice changes nothing |
| RoutesPage.Page.constructor | src/components/layouts/admin-layouts/RoutesPage.tsx:28-44 | the page lists the collection |
| RoutesPage.Page.HandleDelete | src/components/layouts/admin-layouts/RoutesPage.tsx:53-57 | with an admin signed in and a successful delete the route is gone and the list is fetched again; otherwise nothing changes |
| Drivers.FilteredDrivers | src/components/layouts/admin-layouts/Drivers.tsx:48-52 | a driver is listed iff the full name or licence number contains the search, ignoring case |
| Drivers.FilteredDriversSpec | src/components/layouts/admin-layouts/Drivers.tsx:48-52 | the listed drivers keep the list's order, and the case of the search text does not matter |
| Drivers.DriverShownCases | src/components/layouts/admin-layouts/Drivers.tsx:48-52 | a driver with neither field is never listed; one with a licence number is listed for an empty search |
| Drivers.ChipColor | src/components/layouts/admin-layouts/Drivers.tsx:129-135 | the chip is green exactly for "Active" and blue exactly for "On Trip" |
| Drivers.ChipColorCaseSensitive | src/components/layouts/admin-layouts/Drivers.tsx:129-135 | the comparison is case-sensitive, and a missing status gets the default colour |
| CompanyRequests.Filtered | src/components/layouts/superadmin-layouts/CompanyRequests.tsx:55-61 | a request is listed iff its status equals the tab, ignoring case, and its company, contact or request type contains the search, ignoring case |
| CompanyRequests.FilteredSpec | src/components/layouts/superadmin-layouts/CompanyRequests.tsx:43-61 | the listed requests keep the newest-first order, and the case of neither the tab nor the search matters |
| CompanyRequests.EmptyStateSpec | src/components/layouts/superadmin-layouts/CompanyRequests.tsx:96-100 | the "No <tab> requests found." line shows exactly when no request passes the filter |
| CompanyRequests.FiledRequestNeverListed | src/components/layouts/superadmin-layouts/CompanyRequests.tsx:36-61 | as written, a request filed by the admin signup page has the status "pending", which matches none of the six tabs, so it is never listed |
| CompanyRequests.FiledRequestListed | src/components/layouts/superadmin-layouts/CompanyRequests.tsx:36-61 | with a "Pending" tab added, every filed request is listed for an empty search and the six original tabs are kept |
| SuperadminDashboard.UnreadCountIsQuerySize | src/components/layouts/superadmin-layouts/SuperadminDashboard.tsx:16-25 | the badge is the number of notifications the unread company-request query returns |
| SuperadminDashboard.UnreadCountZero | src/components/layouts/superadmin-layouts/SuperadminDashboard.tsx:16-25 | the badge is zero exactly when no notification is an unread company request |
| SuperadminDashboard.AllMarkedRead | src/components/layouts/superadmin-layouts/SuperadminDashboard.tsx:41-46 | the batch marks every unread company request read and leaves every other notification as it was |
| SuperadminDashboard.AllMarkedReadSpec | src/components/layouts/superadmin-layouts/SuperadminDashboard.tsx:41-46 | after the batch the badge is zero, and a marked notification changed only its status |
| SuperadminDashboard.Dashboard.constructor | src/components/layouts/superadmin-layouts/SuperadminDashboard.tsx:13-15 | the dashboard starts on the collection, with no navigation |
| SuperadminDashboard.Dashboard.HandleCompanyRequestsClick | src/components/layouts/superadmin-layouts/SuperadminDashboard.tsx:30-54 | a batch commits iff the query succeeds, something matches and the commit succeeds, and then every match is read; the page navigates unless the query or a needed commit fails |
| SendInvitation.FormValidSpec | src/components/layouts/superadmin-layouts/Invites/SendInvitation.tsx:102-103 | the send button is enabled exactly when the name is not blank and the email passes the pattern |
| SendInvitation.RandomId | src/components/layouts/superadmin-layouts/Invites/SendInvitation.tsx:36 | the random id is a six-digit number |
| SendInvitation.CompanyIdSpec | src/components/layouts/superadmin-layouts/Invites/SendInvitation.tsx:37 | a company id is "company_" and six digits that read back as the random number |
| SendInvitation.InviteLinkDetermines | src/components/layouts/superadmin-layouts/Invites/SendInvitation.tsx:68 | two links for generated ids are equal only for equal companies and tokens |
| SendInvitation.Pending | src/components/layouts/superadmin-layouts/Invites/SendInvitation.tsx:57-65 | the invitation is first recorded pending, for the admin role, with the form's email and message |
| SendInvitation.DispatchedSpec | src/components/layouts/superadmin-layouts/Invites/SendInvitation.tsx:71-85 | after the mail the status is "sent" exactly without a failure and "failed" exactly with one, and nothing else but the error changes |
| SendInvitation.Form.constructor | src/components/layouts/superadmin-layouts/Invites/SendInvitation.tsx:18-26 | the form starts empty with the default message |
| SendInvitation.Form.ChangeCompanyName | src/components/layouts/superadmin-layouts/Invites/SendInvitation.tsx:126-133 | a blank name shows "Company name is required"; nothing else changes |
| SendInvitation.Form.ChangeEmail | src/components/layouts/superadmin-layouts/Invites/SendInvitation.tsx:144-151 | an address the pattern rejects shows "Enter a valid email address"; nothing else changes |
| SendInvitation.Form.HandleSendInvite | src/components/layouts/superadmin-layouts/Invites/SendInvitation.tsx:33-101 | without a user nothing is written; the company, then the pending invitation, then its final status are written as far as the writes succeed; the success alert carries the link and resets the form |
| EditCompanyRequest.ChangedSpec | src/components/modals/EditCompanyRequestModal.tsx:64-82 | an "address." or "requestedBy." input sets only that nested field; any other input sets only its own top-level field |
| EditCompanyRequest.Normalised | src/components/modals/EditCompanyRequestModal.tsx:87-94 | the update turns falsy numbers into null, a truthy employee count into a number and a missing nested object into an empty one |
| EditCompanyRequest.AppliedKeepsStatus | src/components/modals/EditCompanyRequestModal.tsx:87-94 | saving never changes the stored status nor any top-level field other than the four it writes |
| EditCompanyRequest.SaveId | src/components/modals/EditCompanyRequestModal.tsx:85 | a save goes ahead only for a form with a non-empty string id |
| EditCompanyRequest.Dialog.constructor | src/components/modals/EditCompanyRequestModal.tsx:54 | the dialog starts without a form |
| EditCompanyRequest.Dialog.Open | src/components/modals/EditCompanyRequestModal.tsx:56-60 | a request is copied into the form; no request leaves the form as it was |
| EditCompanyRequest.Dialog.HandleChange | src/components/modals/EditCompanyRequestModal.tsx:64-82 | the form becomes the changed copy; the store is untouched |
| EditCompanyRequest.Dialog.HandleSave | src/components/modals/EditCompanyRequestModal.tsx:84-101 | a form without an id does nothing; a successful write applies the normalised update, closes and says so; a failed one changes nothing and shows the error |

## Left out

- Firebase itself: every Firestore, Storage and Auth call that the core's handlers make is a parameter (its success, its error code, the new document id or uid). The reads that only fill a list or a menu (the list pages, the company requests, the trip dialog's driver, truck, trailer and route menus) and the trip-number read below are taken to succeed, and their result is given; a failure of these reads is not modelled. The stores hold only the fields the core reads and the non-timestamp fields it writes. The listeners that refetch a list are modelled by assigning the list, and the Firestore ordering of a query (`orderBy("createdAt", "desc")` on the company requests) is taken as the order of the given list.
- `serverTimestamp()` fields that are dropped rather than given as a parameter: `createdAt` in AdminSignup.RequestRecord, AdminSignup.CompanyRecord and AdminSignup.ProfileRecord (`src/components/Auth/admin-signup-auth.tsx:115`, `147`, `160`); `updatedAt` in Trips.WithOdometer (`src/components/layouts/admin-layouts/Trips.tsx:74`); `updatedAt` on an edit and `createdAt` on an add in Forms.Written, as used by the route, trailer and truck dialogs (`src/components/modals/RouteModal.tsx:114`, `119`; `src/components/modals/TrailerModal.tsx:140`, `145`; `src/components/modals/TruckModal.tsx:146`, `151`).
- Randomness and clocks: `Math.random` and `uuidv4` are parameters (`draw`, `token`). The current time is the parameter `now` where the superadmin signup, the driver signup and the invitation form store it (`new Date()` or `serverTimestamp()`); `getFullYear` is the parameter `year`; today's date and the UTC offset are the trailer dialog's `Clock`. The timestamps listed on the line above are not modelled.
- Concurrency: the double redemption of a driver invite between `loadInvite` and `handleSignup`, and the non-atomic company and invitation writes. The model is sequential.
- JavaScript numbers: `Number(...)` is modelled on trimmed digit strings with an optional sign, giving an integer, 0 for a blank string, or NaN. Decimals, exponents and float rounding are not modelled. Strings JavaScript also reads as numbers become NaN in the model: the `0x`, `0b` and `0o` prefixes (`Number("0x10")` is 16) and `"Infinity"`. Through Trips.StartReading and Trips.EndReading such a reading is rejected or stored as NaN where the source would compute with it.
- Locale formatting (`src/utils/dateFormatter.ts`, `src/utils/numberFormatter.tsx`) and the progress percentage at `src/components/layouts/admin-layouts/Trips.tsx:189`, which is floating point.
- Case folding and `\s` are ASCII only.
- The mailer (`mailer/src/index.ts`, `functions/index.js`) and the callable wrapper `src/servics/inviteService.ts` are not part of this model. Sending a mail is a parameter that either succeeds or fails with a message.
- `DriverModal.tsx` is not part of this model: it only uploads files and writes a record, with no rules.
- The trip dialog's `handleSave` (file upload, new-route creation, trip write) and its edit-mode preload (`src/components/modals/TripModal.tsx:129-136`, `310-362`) are not modelled, nor are the new-route detail inputs (`src/components/modals/TripModal.tsx:506-521`), each an inline `setForm` of one `route_details.pickup` or `route_details.dropoff` field that only `handleSave` reads. The new-trip preload is `TripModal.NewTrip`.
- The superadmin page's "already have an account" link, its local storage and its reCAPTCHA setup are UI only.
- The invitation form's custom-message input only sets a string, and the model keeps that string.
- `handleChange` on an input whose name is not one of the form's fields is not modelled, because forms are records with fixed fields. The trailer dialog's preload drops document keys outside the form.
- SuperadminSignup.Page.HandleSignup: its `EmailRecord` stores the typed email where `src/components/Auth/superadmin-signup-auth.tsx:147` stores `user.email`; an address Firebase Auth normalises is not captured.
- DriverSignup.DriverRecord: stores the typed email where `src/components/Auth/driver-signup-auth.tsx:55` stores `user.email`; an address Firebase Auth normalises is not captured.
- TripModal.Dialog.Open: the `getDocs` read in `getNextTripNumber` (`src/components/modals/TripModal.tsx:118`) is taken to succeed, with the collection size as `count`. When it fails the source never prepares the new-trip form, and the model does not capture that case.
- A driver invite without a `companyId` is not modelled. The model's invite always has one.
- An edit-company-request form whose `id` is not a string is treated like a missing id.
- Trips.TripsPage.SaveOdometer: returns an outcome (`Rejected`, `WriteFailed`, `Saved`) instead of the alert texts.

## Findings

| source | as written | input that shows it | evidently intended | confidence | as-written member | corrected member |
|---|---|---|---|---|---|---|
| src/utils/dateValidators.ts:7-27 | a "YYYY-MM-DD" value is parsed as UTC midnight and then truncated in local time | in any zone west of UTC, today's date becomes yesterday, so "today or later" rejects today | compare calendar days | not executed | DateValidators.TodayRejectedWestOfUtc | DateValidators.DatePredicatesCover |
| src/components/modals/TripModal.tsx:270-308 | the driver is looked up by document id, but the menu supplies the licence number | driver `{id: "x7Gq", licenseNumber: "D123"}` with a truck assigned to "D123": no truck is filled in | look the driver up by licence number | not executed | TripModal.AsWrittenMissesAssignedTruck | TripModal.DriverSelectedSpec |
| src/components/modals/TripModal.tsx:296-299 | `assignedTruckNumber === truckNumber` holds when both are undefined | a truck without a number and a trailer assigned to no truck: they are paired | pair only with a truck that has a number | not executed | TripModal.AsWrittenPairsUnassignedTrailer | TripModal.DriverSelectedSpec |
| src/components/layouts/admin-layouts/Trips.tsx:60-68 | `end < start` is false when start is NaN | a stored start of "150,000" and an end of "150500": the save is accepted and NaN miles are stored | reject a start that is not a number | not executed | Trips.AsWrittenStoresNaNMiles | Trips.AcceptedSpec |
| src/components/layouts/admin-layouts/Trucks.tsx:141-149 | the chip compares against lowercase statuses | status "Active", as the truck dialog saves it: default colour | compare the lowercased status | not executed | Trucks.SavedStatusesUncoloured | Trucks.ChipColorSpec |
| src/components/layouts/admin-layouts/Trailers.tsx:57-68 | the icon switch expects "refrigerated" | type "Refrigerated (Reefer)", as the trailer dialog saves it: default icon | match the saved type | not executed | Trailers.ReeferGetsDefaultIcon | Trailers.TrailerIconSpec |
| src/components/layouts/admin-layouts/Trailers.tsx:163-166 | the chip compares against "in use" | status "In Use", as the trailer dialog saves it: shown green like "Available" | compare the lowercased status | not executed | Trailers.InUseShownGreen | Trailers.ChipToneSpec |
| src/components/layouts/superadmin-layouts/CompanyRequests.tsx:36-61 | there is no tab for "pending" | every request the admin signup page files has status "pending" and is never listed | add a "Pending" tab | not executed | CompanyRequests.FiledRequestNeverListed | CompanyRequests.FiledRequestListed |
