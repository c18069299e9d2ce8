/** src/utils/validators.ts: the US phone formatter and the email, licence-number and
    SSN patterns. */
module Validators {
  import opened Js

  // ---------------------------------------------------------------------------
  // Phone formatting
  // ---------------------------------------------------------------------------

  /** `value.replace(/\D/g, "")`: the digits of `s`, in order. */
  function Digits(s: string): (d: string)
    ensures AllDigits(d) && |d| <= |s|
  {
    if s == [] then [] else (if IsDigit(s[0]) then [s[0]] else []) + Digits(s[1..])
  }

  lemma {:induction false} DigitsAppend(a: string, b: string)
    ensures Digits(a + b) == Digits(a) + Digits(b)
  {
    if a == [] {
      assert a + b == b;
    } else {
      assert (a + b)[0] == a[0];
      assert (a + b)[1..] == a[1..] + b;
      DigitsAppend(a[1..], b);
    }
  }

  lemma {:induction false} DigitsOfDigits(d: string)
    requires AllDigits(d)
    ensures Digits(d) == d
  {
    if d != [] {
      DigitsOfDigits(d[1..]);
    }
  }

  /** A string with no digit at all keeps none. */
  lemma {:induction false} DigitsOfNonDigits(s: string)
    requires forall i :: 0 <= i < |s| ==> !IsDigit(s[i])
    ensures Digits(s) == ""
  {
    if s != [] {
      DigitsOfNonDigits(s[1..]);
    }
  }

  /** Ways `^(\d{0,3})(\d{0,3})(\d{0,4})$` can match the digit string `c`: the first
      group is `c[..a]`, the second `c[a..b]`, the third `c[b..]`. */
  ghost predicate IsPhoneSplit(c: string, a: int, b: int) {
    0 <= a <= 3 && a <= b <= a + 3 && b <= |c| <= b + 4
  }

  /** The match the regex engine reports: greedy groups, so the longest first group
      that still lets the pattern match, then the longest second group. */
  function PhoneMatch(c: string): (m: Option<(nat, nat)>)
    ensures m.None? <==> forall a, b :: !IsPhoneSplit(c, a, b)
    ensures m.Some? ==> IsPhoneSplit(c, m.value.0, m.value.1)
    ensures m.Some? ==> forall a, b :: IsPhoneSplit(c, a, b) ==>
              a < m.value.0 || (a == m.value.0 && b <= m.value.1)
  {
    if |c| > 10 then None
    else
      var a := if |c| < 3 then |c| else 3;
      var b := if |c| < 6 then |c| else 6;
      assert IsPhoneSplit(c, a, b);
      Some((a, b))
  }

  /** The string the formatter builds from the three groups. */
  function Layout(g1: string, g2: string, g3: string): string {
    (if g1 != "" then "(" + g1 else "")
    + (if |g1| == 3 then ") " else "")
    + g2
    + (if |g2| == 3 then "-" else "")
    + g3
  }

  /** `formatPhoneNumber(value)` as a value. */
  function PhoneFormat(value: string): string {
    if value == "" then ""
    else
      var c := Digits(value);
      match PhoneMatch(c)
      case None => value
      case Some(m) => Layout(c[..m.0], c[m.0..m.1], c[m.1..])
  }

  /** `formatPhoneNumber`: builds `result` group by group. */
  method FormatPhoneNumber(value: string) returns (result: string)
    ensures result == PhoneFormat(value)
    ensures |Digits(value)| <= 10 ==> Digits(result) == Digits(value)
    ensures |Digits(value)| > 10 ==> result == value
  {
    if value == "" {
      return "";
    }
    var cleaned := Digits(value);
    var match_ := PhoneMatch(cleaned);
    if match_.None? {
      return value;
    }
    var g1, g2, g3 := cleaned[..match_.value.0], cleaned[match_.value.0..match_.value.1], cleaned[match_.value.1..];
    result := "";
    if g1 != "" { result := "(" + g1; }
    if g1 != "" && |g1| == 3 { result := result + ") "; }
    if g2 != "" { result := result + g2; }
    if g2 != "" && |g2| == 3 { result := result + "-"; }
    if g3 != "" { result := result + g3; }
    PhoneDigitsPreserved(value);
  }

  /** The four shapes of the output for a value with at most ten digits. */
  lemma PhoneFormatShapes(value: string)
    requires |Digits(value)| <= 10
    ensures var d, r := Digits(value), PhoneFormat(value);
      && (value == "" ==> r == "")
      && (value != "" && |d| == 0 ==> r == "")
      && (1 <= |d| < 3 ==> r == "(" + d)
      && (3 <= |d| < 6 ==> r == "(" + d[..3] + ") " + d[3..])
      && (6 <= |d| ==> r == "(" + d[..3] + ") " + d[3..6] + "-" + d[6..])
  {
    var d := Digits(value);
    if value == "" {
      assert d == "";
    } else {
      assert d[..0] == "" && d[0..0] == "";
      assert |d| < 3 ==> d[..|d|] == d && d[|d|..|d|] == "" && d[|d|..] == "";
      assert 3 <= |d| < 6 ==> d[3..|d|] == d[3..] && d[|d|..] == "";
    }
  }

  /** The formatter keeps the digits of the groups, in order, and adds none. */
  lemma DigitsOfLayout(g1: string, g2: string, g3: string)
    requires AllDigits(g1) && AllDigits(g2) && AllDigits(g3)
    ensures Digits(Layout(g1, g2, g3)) == g1 + g2 + g3
  {
    var p1 := if g1 != "" then "(" + g1 else "";
    var p2 := if |g1| == 3 then ") " else "";
    var p4 := if |g2| == 3 then "-" else "";
    assert Digits(p1) == g1 by {
      if g1 != "" {
        DigitsAppend("(", g1);
        DigitsOfDigits(g1);
        assert Digits("(") == "";
      }
    }
    assert Digits(p2) == "" by { DigitsOfNonDigits(p2); }
    assert Digits(p4) == "" by { DigitsOfNonDigits(p4); }
    var t1 := p1 + p2;
    assert Digits(t1) == g1 by { DigitsAppend(p1, p2); }
    var t2 := t1 + g2;
    assert Digits(t2) == g1 + g2 by { DigitsAppend(t1, g2); DigitsOfDigits(g2); }
    var t3 := t2 + p4;
    assert Digits(t3) == g1 + g2 by { DigitsAppend(t2, p4); }
    var t4 := t3 + g3;
    assert Digits(t4) == g1 + g2 + g3 by { DigitsAppend(t3, g3); DigitsOfDigits(g3); }
    assert Layout(g1, g2, g3) == t4;
  }

  lemma PhoneDigitsPreserved(value: string)
    requires |Digits(value)| <= 10
    ensures Digits(PhoneFormat(value)) == Digits(value)
  {
    if value != "" {
      var d := Digits(value);
      var m := PhoneMatch(d).value;
      var g1, g2, g3 := d[..m.0], d[m.0..m.1], d[m.1..];
      SplitDigits(d, m.0, m.1);
      DigitsOfLayout(g1, g2, g3);
      Reassembled(d, m.0, m.1);
    }
  }

  lemma SplitDigits(d: string, a: nat, b: nat)
    requires AllDigits(d) && a <= b <= |d|
    ensures AllDigits(d[..a]) && AllDigits(d[a..b]) && AllDigits(d[b..])
  {
  }

  lemma Reassembled(d: string, a: nat, b: nat)
    requires a <= b <= |d|
    ensures d[..a] + d[a..b] + d[b..] == d
  {
  }

  /** Formatting a formatted value changes nothing. */
  lemma PhoneFormatIdempotent(value: string)
    ensures PhoneFormat(PhoneFormat(value)) == PhoneFormat(value)
  {
    var r := PhoneFormat(value);
    if value != "" && |Digits(value)| <= 10 && r != "" {
      PhoneDigitsPreserved(value);
      assert Digits(r) == Digits(value);
    }
  }

  /** Exactly ten digits give the full 14-character form. */
  lemma PhoneTenDigits(value: string)
    requires |Digits(value)| == 10
    ensures var d := Digits(value);
      PhoneFormat(value) == "(" + d[..3] + ") " + d[3..6] + "-" + d[6..]
      && |PhoneFormat(value)| == 14
  {
    PhoneFormatShapes(value);
  }

  /** More than ten digits: the pattern cannot match and the input comes back unchanged. */
  lemma PhoneTooLong(value: string)
    requires |Digits(value)| > 10
    ensures forall a, b :: !IsPhoneSplit(Digits(value), a, b)
    ensures PhoneFormat(value) == value
  {
  }

  /** With k <= 10 digits the output opens with "(" exactly when there is a digit. */
  lemma PhoneOpenParen(value: string)
    requires |Digits(value)| <= 10
    ensures var r := PhoneFormat(value); (r != "" && r[0] == '(') <==> |Digits(value)| >= 1
  {
    PhoneFormatShapes(value);
  }

  /** With k <= 10 digits, ") " appears exactly when the first group is complete. */
  lemma PhoneCloseParen(value: string)
    requires |Digits(value)| <= 10
    ensures Includes(PhoneFormat(value), ") ") <==> |Digits(value)| >= 3
  {
    var d, r := Digits(value), PhoneFormat(value);
    PhoneFormatShapes(value);
    if |d| >= 3 {
      assert r[4..6] == ") ";
      assert OccursAt(r, ") ", 4);
    } else {
      assert forall i :: 0 <= i < |r| ==> r[i] != ')' by {
        if r != "" {
          assert r == "(" + d;
          assert forall i :: 1 <= i < |r| ==> r[i] == d[i - 1];
        }
      }
      IncludesFirstChar(r, ") ");
    }
  }

  lemma IncludesFirstChar(s: string, sub: string)
    requires sub != ""
    ensures Includes(s, sub) ==> exists i :: 0 <= i < |s| && s[i] == sub[0]
  {
    if Includes(s, sub) {
      var i :| 0 <= i <= |s| && OccursAt(s, sub, i);
      assert s[i] == sub[0];
    }
  }

  /** With k <= 10 digits, "-" appears exactly when the second group is complete. */
  lemma PhoneDash(value: string)
    requires |Digits(value)| <= 10
    ensures '-' in PhoneFormat(value) <==> |Digits(value)| >= 6
  {
    var d, r := Digits(value), PhoneFormat(value);
    PhoneFormatShapes(value);
    if |d| >= 6 {
      assert r[9] == '-';
    } else if '-' in r {
      assert false;
    }
  }

  // ---------------------------------------------------------------------------
  // Passwords
  // ---------------------------------------------------------------------------

  /** `p.length >= 6`: the password rule of every signup page (`validatePassword` on
      the superadmin and driver pages, `password.length < 6` on the admin page). */
  predicate PasswordOk(p: string) {
    |p| >= 6
  }

  // ---------------------------------------------------------------------------
  // Email
  // ---------------------------------------------------------------------------

  /** `[^\s@]` */
  predicate EmailChar(c: char) { !IsSpace(c) && c != '@' }

  /** `/^[^\s@]+@[^\s@]+\.[^\s@]+$/.test(value)`: the `@` at `i`, the literal dot at `j`,
      every other character from `[^\s@]`. */
  predicate IsValidEmail(value: string) {
    exists i, j :: 0 < i && i + 1 < j && j + 1 < |value| && EmailSplit(value, i, j)
  }

  predicate EmailSplit(value: string, i: nat, j: nat)
    requires i < |value| && j < |value|
  {
    value[i] == '@' && value[j] == '.'
    && forall k :: 0 <= k < |value| && k != i ==> EmailChar(value[k])
  }

  /** The positions of `c` in `s`. */
  function Positions(s: string, c: char): set<nat> {
    set k: nat | k < |s| && s[k] == c
  }

  /** The shape the pattern accepts, stated on the parts of the address. */
  ghost predicate EmailShape(s: string) {
    && (forall k :: 0 <= k < |s| ==> !IsSpace(s[k]))
    && |Positions(s, '@')| == 1
    && exists i :: 0 <= i < |s| && s[i] == '@'
         && i > 0
         && var domain := s[i + 1..];
            exists j :: 0 < j < |domain| - 1 && domain[j] == '.'
  }

  lemma TwoElementsNotSingleton(S: set<nat>, x: nat, y: nat)
    requires x in S && y in S && x != y
    ensures |S| != 1
  {
    assert |{x, y}| == 2;
    SubsetCard({x, y}, S);
  }

  lemma SubsetCard(A: set<nat>, B: set<nat>)
    requires A <= B
    ensures |A| <= |B|
  {
    assert B == A + (B - A);
  }

  /** The email pattern accepts exactly the strings with no white space, exactly one
      `@`, a non-empty part before it, and a dot in the part after it that is neither
      that part's first nor its last character. */
  lemma EmailPatternShape(s: string)
    ensures IsValidEmail(s) <==> EmailShape(s)
  {
    if IsValidEmail(s) {
      var i, j :| 0 < i && i + 1 < j && j + 1 < |s| && EmailSplit(s, i, j);
      assert Positions(s, '@') == {i};
      var domain := s[i + 1..];
      assert domain[j - i - 1] == '.';
    }
    if EmailShape(s) {
      var i :| 0 <= i < |s| && s[i] == '@' && i > 0
        && var domain := s[i + 1..]; exists j :: 0 < j < |domain| - 1 && domain[j] == '.';
      var domain := s[i + 1..];
      var j :| 0 < j < |domain| - 1 && domain[j] == '.';
      forall k | 0 <= k < |s| && k != i ensures EmailChar(s[k]) {
        if s[k] == '@' {
          assert i in Positions(s, '@') && k in Positions(s, '@');
          TwoElementsNotSingleton(Positions(s, '@'), i, k);
        }
      }
      assert EmailSplit(s, i, i + 1 + j);
    }
  }

  // ---------------------------------------------------------------------------
  // Licence number and SSN
  // ---------------------------------------------------------------------------

  /** `/^[A-Z0-9]+$/.test(value)`, matched one character at a time. */
  function IsValidLicenseNumber(value: string): (ok: bool)
    ensures ok <==> value != "" && forall i :: 0 <= i < |value| ==> IsUpper(value[i]) || IsDigit(value[i])
  {
    if value == [] then false
    else (IsUpper(value[0]) || IsDigit(value[0])) && (|value| == 1 || IsValidLicenseNumber(value[1..]))
  }

  /** `/^\d{3}-\d{2}-\d{4}$/.test(value)` */
  predicate IsValidSSN(value: string) {
    |value| == 11 && value[3] == '-' && value[6] == '-'
    && AllDigits(value[..3]) && AllDigits(value[4..6]) && AllDigits(value[7..])
  }

  /** Nine digits laid out as ddd-dd-dddd. */
  function DashSSN(d: string): string
    requires |d| == 9
  {
    d[..3] + "-" + d[3..5] + "-" + d[5..]
  }

  /** A string is a valid SSN exactly when it is its own nine digits laid out as
      ddd-dd-dddd. */
  lemma SSNRoundTrip(value: string)
    ensures IsValidSSN(value) <==> |Digits(value)| == 9 && value == DashSSN(Digits(value))
  {
    if IsValidSSN(value) {
      var a, b, c := value[..3], value[4..6], value[7..];
      assert value == a + "-" + b + "-" + c;
      DigitsOfDashed(a, b, c);
      SplitNine(a, b, c);
    }
    if |Digits(value)| == 9 && value == DashSSN(Digits(value)) {
      DashedIsValid(Digits(value));
    }
  }

  /** The dashes of a laid-out number are dropped and its digits kept. */
  lemma DigitsOfDashed(a: string, b: string, c: string)
    requires AllDigits(a) && AllDigits(b) && AllDigits(c)
    ensures Digits(a + "-" + b + "-" + c) == a + b + c
  {
    assert Digits("-") == "" by { DigitsOfNonDigits("-"); }
    var t1 := a + "-";
    assert Digits(t1) == a by { DigitsAppend(a, "-"); DigitsOfDigits(a); }
    var t2 := t1 + b;
    assert Digits(t2) == a + b by { DigitsAppend(t1, b); DigitsOfDigits(b); }
    var t3 := t2 + "-";
    assert Digits(t3) == a + b by { DigitsAppend(t2, "-"); }
    var t4 := t3 + c;
    assert Digits(t4) == a + b + c by { DigitsAppend(t3, c); DigitsOfDigits(c); }
  }

  lemma SplitNine(a: string, b: string, c: string)
    requires |a| == 3 && |b| == 2 && |c| == 4
    ensures DashSSN(a + b + c) == a + "-" + b + "-" + c
  {
    var d := a + b + c;
    assert d[..3] == a && d[3..5] == b && d[5..] == c;
  }

  lemma DashedIsValid(d: string)
    requires |d| == 9 && AllDigits(d)
    ensures IsValidSSN(DashSSN(d))
  {
    var v := DashSSN(d);
    assert v[..3] == d[..3] && v[4..6] == d[3..5] && v[7..] == d[5..];
  }
}
