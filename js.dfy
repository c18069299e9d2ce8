/** The JavaScript built-ins the console's rules rely on, restricted to what those
    rules need: ASCII character classes, `trim`, `toLowerCase`, `includes`,
    `Number(...)` on integers, truthiness and `||` defaults, `Array.filter`, and
    plain objects used as insertion-ordered error dictionaries. */
module Js {

  datatype Option<+T> = None | Some(value: T)

  // ---------------------------------------------------------------------------
  // Characters (ASCII approximation of the JS regex classes)
  // ---------------------------------------------------------------------------

  /** `\d` */
  predicate IsDigit(c: char) { '0' <= c <= '9' }

  predicate IsUpper(c: char) { 'A' <= c <= 'Z' }

  /** `\s` on ASCII: space, tab, line feed, vertical tab, form feed, carriage return. */
  predicate IsSpace(c: char) {
    c == ' ' || c == '\t' || c == '\n' || c == '\U{B}' || c == '\U{C}' || c == '\r'
  }

  predicate AllDigits(s: string) { forall i :: 0 <= i < |s| ==> IsDigit(s[i]) }

  function LowerChar(c: char): (r: char)
    ensures !IsUpper(r)
    ensures IsUpper(c) ==> r as int == c as int + 32
    ensures !IsUpper(c) ==> r == c
  {
    if IsUpper(c) then (c as int + 32) as char else c
  }

  /** `String.prototype.toLowerCase` on ASCII letters. */
  function ToLower(s: string): (r: string)
    ensures |r| == |s| && forall i :: 0 <= i < |s| ==> r[i] == LowerChar(s[i])
  {
    seq(|s|, i requires 0 <= i < |s| => LowerChar(s[i]))
  }

  lemma ToLowerIdempotent(s: string)
    ensures ToLower(ToLower(s)) == ToLower(s)
  {
  }

  // ---------------------------------------------------------------------------
  // trim
  // ---------------------------------------------------------------------------

  function TrimStart(s: string): (r: string)
    ensures r == [] || !IsSpace(r[0])
    ensures |r| <= |s|
  {
    if s != [] && IsSpace(s[0]) then TrimStart(s[1..]) else s
  }

  function TrimEnd(s: string): (r: string)
    ensures r == [] || !IsSpace(r[|r| - 1])
    ensures |r| <= |s|
  {
    if s != [] && IsSpace(s[|s| - 1]) then TrimEnd(s[..|s| - 1]) else s
  }

  /** Trimming the start drops a prefix made of white space only. */
  lemma {:induction false} TrimStartDropsSpace(s: string)
    ensures exists k :: 0 <= k <= |s| && TrimStart(s) == s[k..] && forall i :: 0 <= i < k ==> IsSpace(s[i])
  {
    if s != [] && IsSpace(s[0]) {
      TrimStartDropsSpace(s[1..]);
      var k :| 0 <= k <= |s[1..]| && TrimStart(s[1..]) == s[1..][k..]
               && forall i :: 0 <= i < k ==> IsSpace(s[1..][i]);
      assert TrimStart(s) == s[k + 1..];
      assert forall i :: 0 <= i < k + 1 ==> IsSpace(s[i]) by {
        forall i | 0 <= i < k + 1 ensures IsSpace(s[i]) { if i > 0 { assert s[i] == s[1..][i - 1]; } }
      }
    } else {
      assert TrimStart(s) == s[0..];
    }
  }

  /** Trimming the end drops a suffix made of white space only. */
  lemma {:induction false} TrimEndDropsSpace(s: string)
    ensures exists k :: 0 <= k <= |s| && TrimEnd(s) == s[..k] && forall i :: k <= i < |s| ==> IsSpace(s[i])
  {
    if s != [] && IsSpace(s[|s| - 1]) {
      var s' := s[..|s| - 1];
      TrimEndDropsSpace(s');
      var k :| 0 <= k <= |s'| && TrimEnd(s') == s'[..k] && forall i :: k <= i < |s'| ==> IsSpace(s'[i]);
      assert TrimEnd(s) == s[..k];
      assert forall i :: k <= i < |s| ==> IsSpace(s[i]) by {
        forall i | k <= i < |s| ensures IsSpace(s[i]) { if i < |s'| { assert s[i] == s'[i]; } }
      }
    } else {
      assert TrimEnd(s) == s[..|s|];
    }
  }

  /** `String.prototype.trim`. */
  function Trim(s: string): string {
    TrimEnd(TrimStart(s))
  }

  predicate AllSpace(s: string) { forall i :: 0 <= i < |s| ==> IsSpace(s[i]) }

  /** `!s.trim()`: the string is empty or only white space (`BlankIsTrimEmpty`). */
  predicate IsBlank(s: string) {
    AllSpace(s)
  }

  lemma {:induction false} TrimStartEmpty(s: string)
    ensures TrimStart(s) == [] <==> AllSpace(s)
  {
    if s != [] && IsSpace(s[0]) {
      TrimStartEmpty(s[1..]);
      assert AllSpace(s) <==> AllSpace(s[1..]) by {
        if AllSpace(s[1..]) {
          forall i | 0 <= i < |s| ensures IsSpace(s[i]) { if i > 0 { assert s[i] == s[1..][i - 1]; } }
        }
      }
    }
  }

  lemma {:induction false} TrimEndEmpty(s: string)
    ensures TrimEnd(s) == [] <==> AllSpace(s)
  {
    if s != [] && IsSpace(s[|s| - 1]) {
      var s' := s[..|s| - 1];
      TrimEndEmpty(s');
      assert AllSpace(s) <==> AllSpace(s') by {
        if AllSpace(s') {
          forall i | 0 <= i < |s| ensures IsSpace(s[i]) { if i < |s| - 1 { assert s[i] == s'[i]; } }
        }
      }
    }
  }

  /** `IsBlank` is exactly "trimming leaves nothing". */
  lemma BlankIsTrimEmpty(s: string)
    ensures IsBlank(s) <==> Trim(s) == ""
  {
    var t := TrimStart(s);
    TrimStartEmpty(s);
    TrimEndEmpty(t);
    if t != [] {
      assert !AllSpace(t);
    }
  }

  // ---------------------------------------------------------------------------
  // includes
  // ---------------------------------------------------------------------------

  /** `s.includes(sub)`: `sub` occurs in `s` as a contiguous block. */
  predicate Includes(s: string, sub: string) {
    exists i :: 0 <= i <= |s| && OccursAt(s, sub, i)
  }

  predicate OccursAt(s: string, sub: string, i: nat) {
    i + |sub| <= |s| && s[i..i + |sub|] == sub
  }

  /** `s.startsWith(p)` */
  predicate StartsWith(s: string, p: string) {
    |p| <= |s| && s[..|p|] == p
  }

  /** `f?.toLowerCase().includes(search.toLowerCase())`: a missing field is falsy. */
  predicate FieldMatches(f: Option<string>, search: string) {
    f.Some? && Includes(ToLower(f.value), ToLower(search))
  }

  lemma FieldMatchesCaseBlind(f: Option<string>, search: string)
    ensures FieldMatches(f, ToLower(search)) == FieldMatches(f, search)
  {
    ToLowerIdempotent(search);
  }

  // ---------------------------------------------------------------------------
  // Numbers and values
  // ---------------------------------------------------------------------------

  /** A JS number restricted to the integers, plus NaN. */
  datatype JsNumber = Int(i: int) | NaN

  /** The dynamically typed values stored in form state and documents. */
  datatype Value = Undefined | Null | Str(s: string) | Num(n: JsNumber)

  function DecimalValue(s: string): (v: nat)
    requires AllDigits(s)
    ensures s == [] ==> v == 0
  {
    if s == [] then 0
    else 10 * DecimalValue(s[..|s| - 1]) + (s[|s| - 1] as int - '0' as int)
  }

  /** `Number(s)` for strings: surrounding white space is ignored, the empty string is 0,
      an optionally signed run of decimal digits is that integer, anything else NaN. */
  function ParseNumber(s: string): (n: JsNumber)
    ensures IsBlank(s) ==> n == Int(0)
    ensures AllDigits(s) && s != [] ==> n == Int(DecimalValue(s))
  {
    var t := Trim(s);
    assert AllDigits(s) && s != [] ==> t == s by {
      if AllDigits(s) && s != [] { TrimOfUnspaced(s); }
    }
    assert IsBlank(s) ==> t == [] by { BlankIsTrimEmpty(s); }
    if t == [] then Int(0)
    else if AllDigits(t) then Int(DecimalValue(t))
    else if |t| > 1 && t[0] == '-' && AllDigits(t[1..]) then Int(0 - DecimalValue(t[1..]))
    else if |t| > 1 && t[0] == '+' && AllDigits(t[1..]) then Int(DecimalValue(t[1..]))
    else NaN
  }

  lemma TrimOfUnspaced(s: string)
    requires s != [] && !IsSpace(s[0]) && !IsSpace(s[|s| - 1])
    ensures Trim(s) == s
  {
  }

  /** `Number(v)` */
  function ToNumber(v: Value): JsNumber {
    match v
    case Undefined => NaN
    case Null => Int(0)
    case Str(s) => ParseNumber(s)
    case Num(n) => n
  }

  /** JS truthiness. */
  predicate Truthy(v: Value) {
    match v
    case Undefined => false
    case Null => false
    case Str(s) => s != ""
    case Num(n) => n.Int? && n.i != 0
  }

  /** `v || d` */
  function Or(v: Value, d: Value): (r: Value)
    ensures Truthy(v) ==> r == v
    ensures !Truthy(v) ==> r == d
  {
    if Truthy(v) then v else d
  }

  /** `doc.f || d` for a document field that is a string when present. */
  function OrString(f: Option<string>, d: string): (r: string)
    ensures f.Some? && f.value != "" ==> r == f.value
    ensures f.None? || f.value == "" ==> r == d
  {
    if f.Some? && f.value != "" then f.value else d
  }

  /** Field `k` of a document whose fields are strings. */
  function Get(doc: map<string, string>, k: string): Option<string> {
    if k in doc then Some(doc[k]) else None
  }

  /** Decimal rendering of a natural number (template-literal interpolation). */
  function NatToString(n: nat): (s: string)
    ensures s != [] && AllDigits(s)
  {
    if n < 10 then [('0' as int + n) as char]
    else NatToString(n / 10) + [('0' as int + n % 10) as char]
  }

  /** Reading the rendering back gives the number. */
  lemma {:induction false} NatToStringRoundTrip(n: nat)
    ensures DecimalValue(NatToString(n)) == n
  {
    var s := NatToString(n);
    if n < 10 {
      assert s[..0] == [];
    } else {
      NatToStringRoundTrip(n / 10);
      assert s[..|s| - 1] == NatToString(n / 10);
    }
  }

  lemma NatToStringInjective(a: nat, b: nat)
    requires NatToString(a) == NatToString(b)
    ensures a == b
  {
    NatToStringRoundTrip(a);
    NatToStringRoundTrip(b);
  }

  function Pow10(k: nat): (p: nat)
    ensures p >= 1
  {
    if k == 0 then 1 else 10 * Pow10(k - 1)
  }

  /** A number with `k` decimal digits is rendered with `k` characters. */
  lemma {:induction false} NatToStringLength(n: nat, k: nat)
    requires 1 <= k && Pow10(k - 1) <= n < Pow10(k)
    ensures |NatToString(n)| == k
  {
    if n >= 10 {
      assert k >= 2;
      assert Pow10(k - 1) == 10 * Pow10(k - 2);
      assert Pow10(k - 2) <= n / 10 < Pow10(k - 1);
      NatToStringLength(n / 10, k - 1);
    }
  }

  // ---------------------------------------------------------------------------
  // String comparison
  // ---------------------------------------------------------------------------

  /** `a < b` on JS strings: code-unit-wise lexicographic order. */
  predicate StrLess(a: string, b: string) {
    if b == [] then false
    else if a == [] then true
    else a[0] < b[0] || (a[0] == b[0] && StrLess(a[1..], b[1..]))
  }

  lemma {:induction false} StrLessIrreflexive(a: string)
    ensures !StrLess(a, a)
  {
    if a != [] {
      StrLessIrreflexive(a[1..]);
    }
  }

  /** Exactly one of `a < b`, `a == b`, `b < a` holds. */
  lemma {:induction false} StrLessTrichotomy(a: string, b: string)
    ensures StrLess(a, b) || a == b || StrLess(b, a)
    ensures !(StrLess(a, b) && StrLess(b, a))
  {
    if a != [] && b != [] {
      StrLessTrichotomy(a[1..], b[1..]);
      if a[0] == b[0] && a[1..] == b[1..] {
        assert a == [a[0]] + a[1..] && b == [b[0]] + b[1..];
      }
    }
  }

  // ---------------------------------------------------------------------------
  // Error dictionaries (`const newErrors: any = {}` filled key by key)
  // ---------------------------------------------------------------------------

  /** A plain object of field -> message, as a validator builds it: the keys in
      insertion order and the message of each key. The keys are the names of a
      form's fields, written as an enumeration `K` of those names. */
  datatype Errors<K(!new)> = Errors(keys: seq<K>, messages: map<K, string>)
  {
    /** `Object.keys(e).length === 0` */
    predicate Empty() {
      keys == []
    }

    /** Message stored for `k`, if any. */
    function Lookup(k: K): Option<string> {
      if k in messages then Some(messages[k]) else None
    }

    /** `e[k] = m`: an existing key keeps its position, a new key goes last. */
    function Put(k: K, m: string): (r: Errors<K>)
      ensures r.Lookup(k) == Some(m) && !r.Empty()
      ensures forall k' :: k' != k ==> r.Lookup(k') == Lookup(k')
    {
      Errors(if k in keys then keys else keys + [k], messages[k := m])
    }

    /** `if (c) e[k] = m`: one conditional step of a validator. */
    function PutIf(c: bool, k: K, m: string): (r: Errors<K>)
      ensures forall k' :: r.Lookup(k') == if c && k' == k then Some(m) else Lookup(k')
      ensures r.Empty() <==> !c && Empty()
    {
      if c then Put(k, m) else this
    }

    /** `Object.values(e)[0]`: the message of the first key in insertion order. */
    function FirstMessage(): (r: Option<string>)
      ensures r.Some? <==> !Empty()
    {
      if keys == [] then None
      else Some(if keys[0] in messages then messages[keys[0]] else "")
    }
  }

  /** `{}` */
  function NoErrors<K(!new)>(): (e: Errors<K>)
    ensures e.Empty() && forall k :: e.Lookup(k) == None
  {
    Errors([], map[])
  }

  /** A step on a key other than the first keeps the first message, and on an
      empty object a failing check's message becomes the first. */
  lemma PutIfFront<K(!new)>(c: bool, e: Errors<K>, k: K, m: string)
    ensures !e.Empty() && e.keys[0] != k ==> e.PutIf(c, k, m).FirstMessage() == e.FirstMessage()
    ensures e.Empty() ==> e.PutIf(c, k, m).FirstMessage() == if c then Some(m) else None
  {
  }

  // ---------------------------------------------------------------------------
  // Array.filter
  // ---------------------------------------------------------------------------

  /** `xs.filter(p)` */
  function Filter<T>(xs: seq<T>, p: T -> bool): (r: seq<T>)
    ensures |r| <= |xs|
    ensures forall i :: 0 <= i < |r| ==> r[i] in xs && p(r[i])
    ensures forall i :: 0 <= i < |xs| && p(xs[i]) ==> xs[i] in r
  {
    if xs == [] then []
    else if p(xs[0]) then [xs[0]] + Filter(xs[1..], p)
    else Filter(xs[1..], p)
  }

  /** `xs.find(p)`: the first element satisfying `p`. */
  function Find<T>(xs: seq<T>, p: T -> bool): (r: Option<T>)
    ensures r.None? <==> forall i :: 0 <= i < |xs| ==> !p(xs[i])
    ensures r.Some? ==> exists i :: 0 <= i < |xs| && xs[i] == r.value && p(xs[i])
                                  && forall j :: 0 <= j < i ==> !p(xs[j])
  {
    if xs == [] then None
    else if p(xs[0]) then Some(xs[0])
    else
      var r := Find(xs[1..], p);
      assert r.Some? ==> exists i :: 0 <= i < |xs[1..]| && xs[1..][i] == r.value && p(xs[1..][i])
                                  && forall j :: 0 <= j < i ==> !p(xs[1..][j]);
      assert r.Some? ==> exists i :: 1 <= i < |xs| && xs[i] == r.value && p(xs[i])
                                  && forall j :: 0 <= j < i ==> !p(xs[j]) by {
        if r.Some? {
          var i :| 0 <= i < |xs[1..]| && xs[1..][i] == r.value && p(xs[1..][i])
                   && forall j :: 0 <= j < i ==> !p(xs[1..][j]);
          assert xs[i + 1] == r.value;
          forall j | 0 <= j < i + 1 ensures !p(xs[j]) {
            if j > 0 { assert xs[j] == xs[1..][j - 1]; }
          }
        }
      }
      r
  }

  /** `sub` is `xs` with some elements left out, the rest in their original order. */
  predicate SubsequenceOf<T(==)>(sub: seq<T>, xs: seq<T>)
    decreases |xs|
  {
    if sub == [] then true
    else if xs == [] then false
    else (sub[0] == xs[0] && SubsequenceOf(sub[1..], xs[1..])) || SubsequenceOf(sub, xs[1..])
  }

  lemma {:induction false} FilterIsSubsequence<T>(xs: seq<T>, p: T -> bool)
    ensures SubsequenceOf(Filter(xs, p), xs)
  {
    if xs != [] {
      FilterIsSubsequence(xs[1..], p);
      var rest := Filter(xs[1..], p);
      if p(xs[0]) {
        assert Filter(xs, p) == [xs[0]] + rest;
        assert ([xs[0]] + rest)[1..] == rest;
      } else if rest != [] {
        assert Filter(xs, p) == rest;
      }
    }
  }

  /** Filtering a list whose every element passes keeps the whole list. */
  lemma {:induction false} FilterKeepsAll<T>(xs: seq<T>, p: T -> bool)
    ensures (forall i :: 0 <= i < |xs| ==> p(xs[i])) ==> Filter(xs, p) == xs
  {
    if xs != [] && forall i :: 0 <= i < |xs| ==> p(xs[i]) {
      assert forall i :: 0 <= i < |xs[1..]| ==> p(xs[1..][i]);
      FilterKeepsAll(xs[1..], p);
    }
  }

  /** Filtering with two predicates that agree on every element gives the same list. */
  lemma {:induction false} FilterCongruent<T>(xs: seq<T>, p: T -> bool, q: T -> bool)
    requires forall i :: 0 <= i < |xs| ==> p(xs[i]) == q(xs[i])
    ensures Filter(xs, p) == Filter(xs, q)
  {
    if xs != [] {
      FilterCongruent(xs[1..], p, q);
    }
  }
}
