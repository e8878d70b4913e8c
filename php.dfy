/** The few PHP built-ins and value semantics the application relies on:
    `str_contains`, truthiness, `(string)` casts of integers, and the
    `$a['k'][0] ?? null` lookups it performs on decoded JSON. */
module Php {

  datatype Option<+T> = None | Some(value: T)

  /** The needle occurs in the haystack starting at offset k. */
  predicate OccursAt(haystack: string, needle: string, k: nat) {
    k + |needle| <= |haystack| && haystack[k..k + |needle|] == needle
  }

  /** str_contains($haystack, $needle): a case-sensitive test, on code points,
      that the needle occurs at some offset; the empty needle occurs in every
      string. */
  predicate StrContains(haystack: string, needle: string) {
    exists k :: 0 <= k <= |haystack| - |needle| && OccursAt(haystack, needle, k)
  }

  /** A needle found at offset k is contained. */
  lemma ContainsAt(haystack: string, needle: string, k: nat)
    requires OccursAt(haystack, needle, k)
    ensures StrContains(haystack, needle)
  {
  }

  /** A string contains whatever follows a prefix of it. */
  lemma ContainsAfter(prefix: string, needle: string)
    ensures StrContains(prefix + needle, needle)
  {
    assert OccursAt(prefix + needle, needle, |prefix|);
  }

  /** Every character of a contained needle occurs in the haystack. */
  lemma NeedleCharsOccur(haystack: string, needle: string, c: char)
    requires StrContains(haystack, needle) && c in needle
    ensures c in haystack
  {
    var k :| 0 <= k <= |haystack| - |needle| && OccursAt(haystack, needle, k);
    var j :| 0 <= j < |needle| && needle[j] == c;
    assert haystack[k..k + |needle|][j] == c;
  }

  /** A needle with a character the haystack lacks is not contained in it. */
  lemma NotContainsByChar(haystack: string, needle: string, c: char)
    requires c in needle && c !in haystack
    ensures !StrContains(haystack, needle)
  {
    if StrContains(haystack, needle) {
      NeedleCharsOccur(haystack, needle, c);
    }
  }

  /** `if ($s)` on a ?string: null, "" and "0" are false, every other string true. */
  predicate Truthy(s: Option<string>) {
    s.Some? && s.value != "" && s.value != "0"
  }

  function DigitChar(d: nat): char
    requires d < 10
  {
    "0123456789"[d]
  }

  /** (string) $n for a non-negative integer: its decimal digits, no leading zero. */
  function NatToString(n: nat): (r: string)
    ensures |r| > 0 && (n < 10 <==> |r| == 1)
    ensures forall i :: 0 <= i < |r| ==> r[i] in "0123456789"
  {
    if n < 10 then [DigitChar(n)] else NatToString(n / 10) + [DigitChar(n % 10)]
  }

  /** (string) $i for an integer: a minus sign before the digits of a negative number. */
  function IntToString(i: int): string {
    if i < 0 then "-" + NatToString(-i) else NatToString(i)
  }

  lemma {:induction false} NatToStringInjective(m: nat, n: nat)
    requires NatToString(m) == NatToString(n)
    ensures m == n
  {
    var r := NatToString(m);
    if m >= 10 && n >= 10 {
      assert r[..|r| - 1] == NatToString(m / 10) && r[..|r| - 1] == NatToString(n / 10);
      NatToStringInjective(m / 10, n / 10);
      assert DigitChar(m % 10) == r[|r| - 1] == DigitChar(n % 10);
    }
  }

  /** Distinct integers are cast to distinct strings, so a stringified chat id
      still identifies the chat. */
  lemma IntToStringInjective(i: int, j: int)
    requires IntToString(i) == IntToString(j)
    ensures i == j
  {
    var r := IntToString(i);
    if i < 0 && j < 0 {
      assert NatToString(-i) == r[1..] == NatToString(-j);
      NatToStringInjective(-i, -j);
    } else if i >= 0 && j >= 0 {
      NatToStringInjective(i, j);
    } else {
      MinusMarksNegative(i);
      MinusMarksNegative(j);
      assert false;
    }
  }

  lemma MinusMarksNegative(i: int)
    ensures |IntToString(i)| > 0 && (IntToString(i)[0] == '-' <==> i < 0)
  {
    if i >= 0 {
      assert IntToString(i)[0] in "0123456789";
    }
  }

  /** A decoded JSON document, as PHP holds it: scalars, lists and string-keyed maps. */
  datatype Value =
    | Null
    | Bool(b: bool)
    | Int(i: int)
    | Str(s: string)
    | List(items: seq<Value>)
    | Object(fields: map<string, Value>)

  /** One step of an array access: `[0]` or `['name']`. */
  datatype Key = At(index: nat) | Named(name: string)

  /** $v[$k] under `??`: a missing key, or access into a non-array, is null.
      An integer index into a map looks up its decimal string, as PHP
      normalises the keys "0", "1", ... of a decoded object to integers. */
  function Get(v: Value, k: Key): Value {
    match v
    case List(items) => if k.At? && k.index < |items| then items[k.index] else Null
    case Object(fields) =>
      var name := if k.At? then NatToString(k.index) else k.name;
      if name in fields then fields[name] else Null
    case _ => Null
  }

  /** $v[$k1][$k2]... ?? null */
  function Path(v: Value, keys: seq<Key>): Value
    decreases |keys|
  {
    if keys == [] then v else Path(Get(v, keys[0]), keys[1..])
  }

  /** $a ?? $b */
  function Coalesce(a: Value, b: Value): Value {
    if a != Null then a else b
  }

  /** PHP truthiness of a decoded value. */
  predicate ValueTruthy(v: Value) {
    match v
    case Null => false
    case Bool(b) => b
    case Int(i) => i != 0
    case Str(s) => s != "" && s != "0"
    case List(items) => |items| > 0
    case Object(fields) => |fields| > 0
  }

  /** (string) $v for a scalar; arrays have no string form here. */
  function ScalarString(v: Value): Option<string> {
    match v
    case Null => Some("")
    case Bool(b) => Some(if b then "1" else "")
    case Int(i) => Some(IntToString(i))
    case Str(s) => Some(s)
    case _ => None
  }
}
