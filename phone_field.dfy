/** The phone inputs of the signup pages (`handlePhoneChange` in
    src/components/Auth/admin-signup-auth.tsx and superadmin-signup-auth.tsx): every
    keystroke keeps the digits typed, at most ten of them, and shows them formatted. */
module PhoneField {
  import opened Js
  import opened Validators

  /** The digits kept from the input: `raw.slice(0, 10)` of the digits typed. */
  function KeptDigits(value: string): (d: string)
    ensures AllDigits(d) && |d| <= 10
    ensures |Digits(value)| <= 10 ==> d == Digits(value)
    ensures |Digits(value)| > 10 ==> |d| == 10 && d == Digits(value)[..10]
  {
    var raw := Digits(value);
    if |raw| > 10 then raw[..10] else raw
  }

  /** The text the field shows after a keystroke. */
  function Shown(value: string): string {
    PhoneFormat(KeptDigits(value))
  }

  /** The field shows exactly the kept digits, and typing its own text back in
      changes nothing. */
  lemma ShownSpec(value: string)
    ensures Digits(Shown(value)) == KeptDigits(value)
    ensures KeptDigits(Shown(value)) == KeptDigits(value)
    ensures Shown(Shown(value)) == Shown(value)
  {
    var d := KeptDigits(value);
    DigitsOfDigits(d);
    PhoneDigitsPreserved(d);
  }

  /** With ten digits typed the field shows the full "(ddd) ddd-dddd" form, and
      digits typed beyond the tenth are dropped. */
  lemma ShownTenDigits(value: string)
    requires |Digits(value)| >= 10
    ensures var d := Digits(value);
            Shown(value) == "(" + d[..3] + ") " + d[3..6] + "-" + d[6..10]
  {
    var d := KeptDigits(value);
    DigitsOfDigits(d);
    PhoneTenDigits(d);
    assert d[..3] == Digits(value)[..3] && d[3..6] == Digits(value)[3..6];
    assert d[6..] == Digits(value)[6..10];
  }
}
