/**
 * What `json_decode($text, true)` hands the admin import actions, and the
 * three PHP operations they apply to it: `$a['key']` (a missing key or a
 * non-array reads as `null`), `foreach` (over the values of an array, and
 * over nothing otherwise) and passing a value to a typed setter parameter
 * (PHP's coercive mode: scalars convert, `null` and arrays throw a
 * `TypeError`).
 */
module Json {
  import opened Base
  import opened Text

  const PhpIntMin: int := -0x8000_0000_0000_0000
  const PhpIntMax: int := 0x7FFF_FFFF_FFFF_FFFF

  /** PHP's `int`: 64 bits. `json_decode` turns a JSON integer outside this range into a float. */
  type PhpInt = i: int | PhpIntMin <= i <= PhpIntMax

  /**
   * A decoded tree. A JSON object keeps the members of the text in order, a repeated key
   * included; `Lookup` and `Elements` read them the way the decoded PHP array holds them,
   * one entry per key.
   */
  datatype Json =
    | JNull
    | JBool(b: bool)
    | JInt(i: PhpInt)
    | JString(s: string)
    | JList(items: seq<Json>)
    | JObject(members: seq<(string, Json)>)

  /** The value of the last member named `key` (a later duplicate overwrites an earlier one), or `null`. */
  function Lookup(members: seq<(string, Json)>, key: string): (r: Json)
    ensures (forall k :: 0 <= k < |members| ==> members[k].0 != key) ==> r == JNull
    ensures r != JNull ==> exists k :: 0 <= k < |members| && members[k] == (key, r)
    decreases |members|
  {
    if members == [] then JNull
    else if members[|members| - 1].0 == key then members[|members| - 1].1
    else Lookup(members[..|members| - 1], key)
  }

  /** Among several members named `key`, the last one is read. */
  lemma {:induction false} LookupIsLast(members: seq<(string, Json)>, key: string, j: nat)
    requires j < |members| && members[j].0 == key
    requires forall k :: j < k < |members| ==> members[k].0 != key
    ensures Lookup(members, key) == members[j].1
    decreases |members|
  {
    if j < |members| - 1 {
      LookupIsLast(members[..|members| - 1], key, j);
    }
  }

  /**
   * `$v['key']`: only an array with that key has a value; `null`, a boolean, an integer or an
   * array without the key reads as `null`. A string receiver throws instead (`ReadThrows`).
   */
  function Get(v: Json, key: string): (r: Json)
    ensures !v.JObject? ==> r == JNull
    ensures v.JObject? ==> r == Lookup(v.members, key)
  {
    if v.JObject? then Lookup(v.members, key) else JNull
  }

  /**
   * Under PHP 8, `$v['key']` on a string with a non-numeric key (every key the imports read is
   * one) throws a `TypeError`, where the other scalars and `null` read as `null`; `isset` does
   * not throw.
   */
  predicate ReadThrows(v: Json)
  {
    v.JString?
  }

  /** `isset($v['key'])` */
  predicate IsSet(v: Json, key: string)
  {
    Get(v, key) != JNull
  }

  /** `is_array($v)`: a decoded list or object. */
  predicate IsArray(v: Json)
  {
    v.JList? || v.JObject?
  }

  /** The keys of the PHP array an object decodes to: each member name once, in the order of its first occurrence. */
  function Keys(members: seq<(string, Json)>): (r: seq<string>)
    ensures |r| <= |members|
    ensures forall i, j :: 0 <= i < j < |r| ==> r[i] != r[j]
    ensures forall key :: key in r <==> exists k :: 0 <= k < |members| && members[k].0 == key
    decreases |members|
  {
    if members == [] then []
    else
      var keys := Keys(members[..|members| - 1]);
      var last := members[|members| - 1].0;
      assert forall k :: 0 <= k < |members| - 1 ==> members[..|members| - 1][k] == members[k];
      if last in keys then keys else keys + [last]
  }

  /**
   * What `foreach ($v as $x)` visits: the values of an array in order, and nothing for anything
   * else. An object's repeated key is one entry of the array, in the place where the key first
   * occurs, holding the value of its last occurrence.
   */
  function Elements(v: Json): (r: seq<Json>)
    ensures !IsArray(v) ==> r == []
    ensures v.JList? ==> r == v.items
    ensures v.JObject? ==> |r| == |Keys(v.members)| <= |v.members|
    ensures v.JObject? ==> forall k :: 0 <= k < |r| ==> r[k] == Lookup(v.members, Keys(v.members)[k])
  {
    match v
    case JList(items) => items
    case JObject(members) =>
      var keys := Keys(members);
      seq(|keys|, k requires 0 <= k < |keys| => Lookup(members, keys[k]))
    case _ => []
  }

  predicate DistinctNames(members: seq<(string, Json)>)
  {
    forall i, j :: 0 <= i < j < |members| ==> members[i].0 != members[j].0
  }

  /** Without a repeated name, the keys are the member names in order. */
  lemma {:induction false} KeysOfDistinctNames(members: seq<(string, Json)>)
    requires DistinctNames(members)
    ensures Keys(members) == seq(|members|, k requires 0 <= k < |members| => members[k].0)
    decreases |members|
  {
    if members != [] {
      var init := members[..|members| - 1];
      assert DistinctNames(init) by {
        assert forall k :: 0 <= k < |init| ==> init[k] == members[k];
      }
      KeysOfDistinctNames(init);
      assert members[|members| - 1].0 !in Keys(init);
    }
  }

  /** Without a repeated name, `foreach` over an object visits every member's value in order. */
  lemma ElementsOfDistinctNames(members: seq<(string, Json)>)
    requires DistinctNames(members)
    ensures Elements(JObject(members)) == seq(|members|, k requires 0 <= k < |members| => members[k].1)
  {
    KeysOfDistinctNames(members);
    var r := Elements(JObject(members));
    forall k | 0 <= k < |members|
      ensures r[k] == members[k].1
    {
      LookupIsLast(members, members[k].0, k);
    }
  }

  /** Two members with one name decode to one entry, holding the second value. */
  lemma RepeatedNameReadOnce(key: string, first: Json, second: Json)
    ensures Elements(JObject([(key, first), (key, second)])) == [second]
  {
    var members := [(key, first), (key, second)];
    assert Keys(members[..1]) == [key];
    assert Keys(members) == [key];
  }

  /** A value passed to a `string` parameter: a scalar converts, `null` and arrays are a `TypeError` (`None`). */
  function AsString(v: Json): (r: Option<string>)
    ensures r.None? <==> v.JNull? || IsArray(v)
    ensures v.JString? ==> r == Some(v.s)
    ensures v.JBool? ==> r == Some(if v.b then "1" else "")
  {
    match v
    case JString(s) => Some(s)
    case JInt(i) => Some(IntToString(i))
    case JBool(b) => Some(if b then "1" else "")
    case _ => None
  }

  /** A value passed to a `?string` parameter: `null` is accepted as `null`. */
  function AsNullableString(v: Json): (r: Option<Option<string>>)
    ensures v.JNull? ==> r == Some(None)
    ensures !v.JNull? ==> (r.Some? <==> AsString(v).Some?) && (r.Some? ==> r.value == AsString(v))
  {
    if v.JNull? then Some(None)
    else match AsString(v)
      case None => None
      case Some(s) => Some(Some(s))
  }

  /** An integer numeral: an optional sign and at least one digit, nothing else. */
  function IntegerText(s: string): (r: Option<int>)
    ensures r.Some? ==> |s| > 0
  {
    if |s| > 1 && (s[0] == '-' || s[0] == '+') && AllDigits(s[1..]) then
      Some(if s[0] == '-' then -(DecimalValue(s[1..]) as int) else DecimalValue(s[1..]))
    else if |s| > 0 && AllDigits(s) then Some(DecimalValue(s))
    else None
  }

  /**
   * A value passed to an `int` parameter: an integer, a boolean, or a string holding an
   * integer numeral; a numeral beyond 64 bits reads as a float that no `int` can hold.
   */
  function AsInt(v: Json): (r: Option<int>)
    ensures v.JInt? ==> r == Some(v.i)
    ensures v.JBool? ==> r == Some(if v.b then 1 else 0)
    ensures v.JString? ==> (r.Some? <==> IntegerText(v.s).Some? && PhpIntMin <= IntegerText(v.s).value <= PhpIntMax)
    ensures v.JString? && r.Some? ==> r == IntegerText(v.s)
    ensures v.JNull? || IsArray(v) ==> r.None?
    ensures r.Some? ==> PhpIntMin <= r.value <= PhpIntMax
  {
    match v
    case JInt(i) => Some(i)
    case JBool(b) => Some(if b then 1 else 0)
    case JString(s) =>
      (match IntegerText(s)
       case Some(n) => if PhpIntMin <= n <= PhpIntMax then Some(n) else None
       case None => None)
    case _ => None
  }

  /** A value passed to a `bool` parameter: a scalar is true unless it is `false`, `0`, `""` or `"0"`. */
  function AsBool(v: Json): (r: Option<bool>)
    ensures r.None? <==> v.JNull? || IsArray(v)
    ensures r == Some(false) <==> v in {JBool(false), JInt(0), JString(""), JString("0")}
  {
    match v
    case JBool(b) => Some(b)
    case JInt(i) => Some(i != 0)
    case JString(s) => Some(s != "" && s != "0")
    case _ => None
  }

  /**
   * An integer written as a string reads back as the same numeral; it reaches an `int`
   * parameter unchanged exactly when it fits in 64 bits, and a 64-bit integer passed to a
   * `string` parameter becomes that numeral.
   */
  lemma IntegerTextRoundTrip(i: int)
    ensures IntegerText(IntToString(i)) == Some(i)
    ensures PhpIntMin <= i <= PhpIntMax ==> AsString(JInt(i)) == Some(IntToString(i))
    ensures PhpIntMin <= i <= PhpIntMax ==> AsInt(JString(IntToString(i))) == Some(i)
    ensures !(PhpIntMin <= i <= PhpIntMax) ==> AsInt(JString(IntToString(i))) == None
  {
    var s := IntToString(i);
    if i < 0 {
      var ds := NatToString(-i);
      assert s[1..] == ds;
      DecimalValueOfNatToString(-i);
    } else {
      DecimalValueOfNatToString(i);
    }
  }
}
