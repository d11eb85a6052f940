/** PHP values as the registrar adapter sees them: the platform's parameter
    array, the result of `json_decode($body, true)`, and the arrays the adapter
    builds and hands to the HTTP client.  Only the parts of PHP's semantics that
    the adapter relies on are written out here: reading an array with `??`,
    `isset`, `empty`, string conversion and array assignment. */
module Php {

  datatype Option<T> = None | Some(value: T)

  /** A PHP value.  `List` is an array whose keys are 0..n-1 (a JSON array);
      `Dict` is an array with string keys, in insertion order (a JSON object).
      Floats are not modelled. */
  datatype Value =
    | Null
    | Bool(b: bool)
    | Int(i: int)
    | Str(s: string)
    | List(items: seq<Value>)
    | Dict(entries: seq<(string, Value)>)

  /** The value stored under `key` in a string-keyed array (the first entry
      with that key), or null when there is none. */
  function Lookup(entries: seq<(string, Value)>, key: string): Value
  {
    if |entries| == 0 then Null
    else if entries[0].0 == key then entries[0].1
    else Lookup(entries[1..], key)
  }

  /** A key that no entry carries reads as null. */
  lemma {:induction false} LookupMissing(entries: seq<(string, Value)>, key: string)
    requires forall j :: 0 <= j < |entries| ==> entries[j].0 != key
    ensures Lookup(entries, key) == Null
  {
    if |entries| > 0 {
      assert forall j :: 0 <= j < |entries[1..]| ==> entries[1..][j] == entries[j + 1];
      LookupMissing(entries[1..], key);
    }
  }

  /** The first entry carrying a key is the one read. */
  lemma {:induction false} LookupFirst(entries: seq<(string, Value)>, j: nat, key: string)
    requires j < |entries| && entries[j].0 == key
    requires forall i :: 0 <= i < j ==> entries[i].0 != key
    ensures Lookup(entries, key) == entries[j].1
  {
    if j > 0 {
      assert forall i :: 0 <= i < j - 1 ==> entries[1..][i] == entries[i + 1];
      LookupFirst(entries[1..], j - 1, key);
    }
  }

  /** `$v[$key] ?? null`: reading a string key of anything that is not a
      string-keyed array gives null. */
  function Get(v: Value, key: string): Value
  {
    if v.Dict? then Lookup(v.entries, key) else Null
  }

  /** `isset($v[$key])`. */
  predicate IsSet(v: Value, key: string)
  {
    Get(v, key) != Null
  }

  /** `empty($x)` for a value that exists: null, false, 0, "", "0" and the empty array. */
  predicate Empty(v: Value)
  {
    match v
    case Null => true
    case Bool(b) => !b
    case Int(i) => i == 0
    case Str(s) => s == "" || s == "0"
    case List(items) => |items| == 0
    case Dict(entries) => |entries| == 0
  }

  /** `$v ?? $default`. */
  function Coalesce(v: Value, default: Value): Value
  {
    if v == Null then default else v
  }

  function Digit(d: nat): char
    requires d < 10
  {
    (d + 48) as char
  }

  /** Decimal text of a natural number, without leading zeros. */
  function NatToString(n: nat): (s: string)
    ensures |s| >= 1
    ensures n < 10 <==> |s| == 1
  {
    if n < 10 then [Digit(n)] else NatToString(n / 10) + [Digit(n % 10)]
  }

  function IntToString(i: int): string
  {
    if i < 0 then "-" + NatToString(-i) else NatToString(i)
  }

  /** Distinct numbers have distinct decimal texts. */
  lemma {:induction false} NatToStringInjective(a: nat, b: nat)
    requires NatToString(a) == NatToString(b)
    ensures a == b
  {
    var s := NatToString(a);
    if a < 10 {
      assert b < 10;
      assert s[0] == Digit(a) && s[0] == Digit(b);
    } else {
      assert b >= 10;
      assert s == NatToString(a / 10) + [Digit(a % 10)];
      assert s == NatToString(b / 10) + [Digit(b % 10)];
      assert s[|s| - 1] == Digit(a % 10) == Digit(b % 10);
      assert NatToString(a / 10) == s[..|s| - 1] == NatToString(b / 10);
      NatToStringInjective(a / 10, b / 10);
    }
  }

  /** PHP's conversion to string (`(string)$v`, string interpolation and `.`):
      null and false give "", true gives "1", an array gives "Array". */
  function ToStr(v: Value): string
  {
    match v
    case Null => ""
    case Bool(b) => if b then "1" else ""
    case Int(i) => IntToString(i)
    case Str(s) => s
    case List(_) => "Array"
    case Dict(_) => "Array"
  }

  /** `$a[$key] = $v` on a string-keyed array: an existing key keeps its place
      and takes the new value, a new key is appended at the end. */
  function Assign(entries: seq<(string, Value)>, key: string, v: Value): (r: seq<(string, Value)>)
    ensures (forall j :: 0 <= j < |entries| ==> entries[j].0 != key) ==> r == entries + [(key, v)]
    ensures Lookup(r, key) == v
    ensures forall k :: k != key ==> Lookup(r, k) == Lookup(entries, k)
  {
    if |entries| == 0 then [(key, v)]
    else if entries[0].0 == key then [(key, v)] + entries[1..]
    else
      var rest := Assign(entries[1..], key, v);
      assert (forall j :: 0 <= j < |entries| ==> entries[j].0 != key) ==>
             (forall j :: 0 <= j < |entries[1..]| ==> entries[1..][j].0 != key);
      [entries[0]] + rest
  }

  /** Every key occurs once. */
  predicate DistinctKeys(entries: seq<(string, Value)>)
  {
    forall i, j :: 0 <= i < j < |entries| ==> entries[i].0 != entries[j].0
  }

  function LowerChar(c: char): char
  {
    if 'A' <= c <= 'Z' then (c as int + 32) as char else c
  }

  /** `strtolower`: ASCII letters only, as in PHP 8.2 and later. */
  function ToLower(s: string): string
  {
    seq(|s|, i requires 0 <= i < |s| => LowerChar(s[i]))
  }
}
