/**
 * A JSON document as `json_decode($text, true)` hands it to PHP: objects become
 * associative arrays, lists become lists, and every lookup the service does with
 * `isset($v['a'][0]['b'])` is a walk along a path of keys and indices.
 * This module also holds the few PHP conversions the service relies on:
 * turning a value into a string (interpolation, concatenation, a string
 * parameter in coercive mode) and PHP's type names.
 */
module Json {
  import opened Wrappers

  datatype Json =
    | Null
    | Bool(b: bool)
    | Int(i: int)
    | String(s: string)
    | List(items: seq<Json>)
    | Object(fields: map<string, Json>)

  /** One array offset: a string key (`['content']`) or an integer index (`[0]`). */
  datatype Step = Key(name: string) | Index(n: nat)

  predicate IsArray(v: Json) {
    v.List? || v.Object?
  }

  /** The decimal digit for d. */
  function Digit(d: nat): (c: char)
    requires d < 10
    ensures '0' <= c <= '9'
    ensures c as int - '0' as int == d
  {
    "0123456789"[d]
  }

  /** The value of a decimal digit. */
  function DigitValue(c: char): (d: nat)
    requires '0' <= c <= '9'
    ensures d < 10 && Digit(d) == c
  {
    (c as int - '0' as int) as nat
  }

  predicate IsDigits(s: string) {
    forall i :: 0 <= i < |s| ==> '0' <= s[i] <= '9'
  }

  /** PHP's decimal form of a non-negative integer, no leading zeros. */
  function NatToString(n: nat): (s: string)
    ensures |s| >= 1 && IsDigits(s)
    ensures |s| > 1 ==> s[0] != '0'
  {
    if n < 10 then [Digit(n)] else NatToString(n / 10) + [Digit(n % 10)]
  }

  /** The number a string of decimal digits denotes (the inverse of NatToString). */
  function DigitsValue(s: string): nat
    requires IsDigits(s)
  {
    if s == [] then 0 else 10 * DigitsValue(s[..|s| - 1]) + DigitValue(s[|s| - 1])
  }

  lemma {:induction false} NatToStringRoundTrip(n: nat)
    ensures DigitsValue(NatToString(n)) == n
  {
    var s := NatToString(n);
    if n >= 10 {
      var init := NatToString(n / 10);
      NatToStringRoundTrip(n / 10);
      assert s == init + [Digit(n % 10)];
      assert s[..|s| - 1] == init;
      assert DigitValue(s[|s| - 1]) == n % 10;
    }
  }

  lemma NatToStringInjective(m: nat, n: nat)
    ensures NatToString(m) == NatToString(n) ==> m == n
  {
    NatToStringRoundTrip(m);
    NatToStringRoundTrip(n);
  }

  /**
   * PHP's decimal form of an integer: a "-" exactly for a negative number,
   * then digits without a leading zero that denote its magnitude.
   */
  function IntToString(i: int): (s: string)
    ensures |s| >= 1 && (s[0] == '-' <==> i < 0)
    ensures var digits := if i < 0 then s[1..] else s;
      |digits| >= 1 && IsDigits(digits) && (|digits| > 1 ==> digits[0] != '0')
      && DigitsValue(digits) == if i < 0 then -i else i
  {
    var n: nat := if i < 0 then -i else i;
    NatToStringRoundTrip(n);
    if i < 0 then
      assert ("-" + NatToString(n))[1..] == NatToString(n);
      "-" + NatToString(n)
    else NatToString(n)
  }

  /**
   * PHP's `$v[$step]` on one value, or None when the offset does not exist.
   * `json_decode` stores an object key such as "0" as the integer key 0, so an
   * index on an object finds the key spelt as that integer's decimal form.
   * A key on a list finds nothing: PHP would only find one for a numeric key,
   * and every key this code uses is a word.  A string, a number, a boolean and
   * null are not containers here; PHP can index a string by an integer, but in
   * every path below an index is followed by a word key, which no string has.
   */
  function Child(v: Json, step: Step): (r: Option<Json>)
    ensures r.Some? ==> IsArray(v)
    ensures v.Object? && step.Index? ==>
      (r.Some? <==> NatToString(step.n) in v.fields)
      && (r.Some? ==> r.value == v.fields[NatToString(step.n)])
  {
    match step
    case Key(k) =>
      if v.Object? && k in v.fields then Some(v.fields[k]) else None
    case Index(n) =>
      if v.List? && n < |v.items| then Some(v.items[n])
      else if v.Object? && NatToString(n) in v.fields then Some(v.fields[NatToString(n)])
      else None
  }

  /** Follows `path` from `v`; a null along the way, as any non-container, ends the walk. */
  function Walk(v: Json, path: seq<Step>): Option<Json>
    decreases |path|
  {
    if path == [] then Some(v)
    else match Child(v, path[0])
      case None => None
      case Some(c) => Walk(c, path[1..])
  }

  /** `isset($v[p0][p1]...)` holds, with `Get(v, path).value` the value found. */
  function Get(v: Json, path: seq<Step>): (r: Option<Json>)
    ensures r.Some? ==> r.value != Null
    ensures r.Some? <==> Walk(v, path).Some? && Walk(v, path).value != Null
    ensures r.Some? ==> r.value == Walk(v, path).value
  {
    match Walk(v, path)
    case Some(w) => if w == Null then None else Some(w)
    case None => None
  }

  /** Walking `p + q` is walking `p`, then walking `q` from where `p` ended. */
  lemma {:induction false} WalkAppend(v: Json, p: seq<Step>, q: seq<Step>)
    ensures Walk(v, p + q) == if Walk(v, p).Some? then Walk(Walk(v, p).value, q) else None
    decreases |p|
  {
    if p == [] {
      assert p + q == q;
    } else {
      assert (p + q)[0] == p[0];
      assert (p + q)[1..] == p[1..] + q;
      match Child(v, p[0])
      case None =>
      case Some(c) => WalkAppend(c, p[1..], q);
    }
  }

  /**
   * `isset` on a path implies `isset` on every proper prefix of it, and the value
   * at the prefix is an array: PHP's lookup never gets past a missing offset,
   * a null or a scalar.
   */
  lemma GetPrefix(v: Json, p: seq<Step>, q: seq<Step>)
    requires q != []
    requires Get(v, p + q).Some?
    ensures Get(v, p).Some? && IsArray(Get(v, p).value)
  {
    WalkAppend(v, p, q);
    var w := Walk(v, p).value;
    assert Walk(w, q).Some?;
    assert Child(w, q[0]).Some?;
  }

  /**
   * A value turned into a string by interpolation or `.`: true is "1", false
   * and null are "", an integer its decimal form, an array the word "Array".
   */
  function Interpolate(v: Json): (s: string)
    ensures v.String? ==> s == v.s
    ensures IsArray(v) ==> s == "Array"
  {
    match v
    case Null => ""
    case Bool(b) => if b then "1" else ""
    case Int(i) => IntToString(i)
    case String(s) => s
    case List(_) => "Array"
    case Object(_) => "Array"
  }

  /**
   * The string a built-in function receives for a `string` parameter in PHP's
   * coercive typing mode: scalars are converted, an array is refused (None,
   * a TypeError).  Null is never passed here.
   */
  function StringArgument(v: Json): (r: Option<string>)
    ensures r.None? <==> IsArray(v)
    ensures r.Some? ==> r.value == Interpolate(v)
  {
    if IsArray(v) then None else Some(Interpolate(v))
  }

  /** The type name PHP 8 prints in a TypeError message. */
  function TypeName(v: Json): string {
    match v
    case Null => "null"
    case Bool(_) => "bool"
    case Int(_) => "int"
    case String(_) => "string"
    case List(_) => "array"
    case Object(_) => "array"
  }
}
