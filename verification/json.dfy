/**
 * JSON documents as Jackson's tree model holds them, and the accessors the
 * migrators call on them. Objects keep their fields in insertion order (a
 * `LinkedHashMap` in Jackson), so key order is observable. Numbers are opaque:
 * they are only copied or coerced, never computed with.
 *
 * Java's `null` (what `get` returns for a missing field) is `None`; a JSON
 * `null` value is `JNull`. Where the Java code dereferences a `null` and
 * throws, the model returns a `Fail` naming the cause.
 */
module Json {
  import JavaText

  datatype Option<+T> = None | Some(value: T)

  /** Why a step of a migration throws instead of producing a document. */
  datatype Failure =
    | NullPointer(field: string)    // a required field is missing, named by its key
    | IndexOutOfBounds(index: int)  // a Java array index past the end
    | ClassCast(expected: string)   // a node is not of the kind it is cast to
    | UnknownCrs(code: string)      // a coordinate reference system cannot be resolved
    | TransformFailed               // reprojecting a point failed
    | NotModelled(what: string)     // a Java library conversion this model does not state

  datatype Result<+T> = Ok(value: T) | Fail(error: Failure) {
    predicate IsFailure() {
      Fail?
    }

    function PropagateFailure<U>(): Result<U>
      requires Fail?
    {
      Fail(error)
    }

    function Extract(): T
      requires Ok?
    {
      value
    }
  }

  /** A JSON number: an integral node (int, long or big integer) or a floating-point node. */
  datatype Number = Int(i: int) | Double(d: real)

  datatype Json =
    | JNull
    | JBool(b: bool)
    | JNum(n: Number)
    | JStr(s: string)
    | JArr(items: seq<Json>)
    | JObj(fields: seq<Field>)

  datatype Field = Field(key: string, value: Json)

  /** The field names of an object in order (`fieldNames()`); no names for any other node. */
  function Keys(v: Json): (ks: seq<string>)
    ensures |ks| == (if v.JObj? then |v.fields| else 0)
    ensures v.JObj? ==> forall i :: 0 <= i < |ks| ==> ks[i] == v.fields[i].key
  {
    if v.JObj? then seq(|v.fields|, i requires 0 <= i < |v.fields| => v.fields[i].key) else []
  }

  /** The value of the first field named `key`. */
  function Lookup(fields: seq<Field>, key: string): Option<Json> {
    if fields == [] then None
    else if fields[0].key == key then Some(fields[0].value)
    else Lookup(fields[1..], key)
  }

  /** A field is found exactly when some field has the key, and what is found is the value of such a field. */
  lemma {:induction false} LookupFound(fields: seq<Field>, key: string)
    ensures Lookup(fields, key).None? <==> forall i :: 0 <= i < |fields| ==> fields[i].key != key
    ensures Lookup(fields, key).Some? ==>
      exists i :: 0 <= i < |fields| && fields[i] == Field(key, Lookup(fields, key).value)
  {
    if fields != [] && fields[0].key != key {
      LookupFound(fields[1..], key);
      assert forall i :: 1 <= i < |fields| ==> fields[i] == fields[1..][i - 1];
    }
  }

  /** The value of the field at `i`, when no earlier field has its key. */
  lemma {:induction false} LookupAt(fields: seq<Field>, i: nat)
    requires i < |fields|
    requires forall j :: 0 <= j < i ==> fields[j].key != fields[i].key
    ensures Lookup(fields, fields[i].key) == Some(fields[i].value)
  {
    if i > 0 {
      LookupAt(fields[1..], i - 1);
    }
  }

  /** `node.get(key)`: the field's value, or Java's `null` when the node is not an object or lacks the field. */
  function Get(v: Json, key: string): (r: Option<Json>)
    ensures r.Some? ==> (v decreases to r.value)
    ensures r.Some? ==> v.JObj?
  {
    if v.JObj? then LookupFound(v.fields, key); Lookup(v.fields, key) else None
  }

  /** An object has a field exactly when its name is among the object's keys. */
  lemma HasIffKey(v: Json, key: string)
    ensures Has(v, key) <==> v.JObj? && key in Keys(v)
  {
    if v.JObj? {
      LookupFound(v.fields, key);
      assert Get(v, key).None? <==> key !in Keys(v);
    }
  }

  /** `node.has(key)` */
  predicate Has(v: Json, key: string) {
    Get(v, key).Some?
  }

  /** The nodes a Java `for` loop over `v` visits: array items, object values in order, nothing otherwise. */
  function Elements(v: Json): (r: seq<Json>)
    ensures forall i :: 0 <= i < |r| ==> (v decreases to r[i])
    ensures v.JArr? ==> r == v.items
    ensures v.JObj? ==> |r| == |v.fields| && forall i :: 0 <= i < |r| ==> r[i] == v.fields[i].value
    ensures !v.JArr? && !v.JObj? ==> r == []
  {
    match v
    case JArr(items) => items
    case JObj(fields) => seq(|fields|, i requires 0 <= i < |fields| => fields[i].value)
    case _ => []
  }

  /** `node.isEmpty()`: no array items and no object fields (always true of a scalar). */
  predicate IsEmptyNode(v: Json) {
    match v
    case JArr(items) => items == []
    case JObj(fields) => fields == []
    case _ => true
  }

  /** Dereferencing the result of `get`: Java throws a `NullPointerException` on `null`. */
  function Required(o: Option<Json>, field: string): (r: Result<Json>)
    ensures r.Ok? <==> o.Some?
    ensures r.Ok? ==> r.value == o.value
  {
    if o.Some? then Ok(o.value) else Fail(NullPointer(field))
  }

  /** `ObjectNode.set` and `ArrayNode.add` store Java's `null` as a JSON `null`. */
  function OrNull(o: Option<Json>): (v: Json)
    ensures o.Some? ==> v == o.value
    ensures o.None? ==> v == JNull
  {
    if o.Some? then o.value else JNull
  }

  /** `textValue()`: the string of a text node, Java's `null` for every other node. */
  function TextValue(v: Json): (r: Option<string>)
    ensures r.Some? <==> v.JStr?
  {
    if v.JStr? then Some(v.s) else None
  }

  /** `put(key, String)`: Java's `null` is stored as a JSON `null`. */
  function StrOrNull(s: Option<string>): (v: Json)
    ensures s.Some? ==> v == JStr(s.value)
    ensures s.None? ==> v == JNull
  {
    if s.Some? then JStr(s.value) else JNull
  }

  /** `put(key, Integer)`: Java's `null` is stored as a JSON `null`. */
  function IntOrNull(i: Option<int>): (v: Json)
    ensures i.Some? ==> v == JNum(Int(i.value))
    ensures i.None? ==> v == JNull
  {
    if i.Some? then JNum(Int(i.value)) else JNull
  }

  /**
   * `asText()`: a string as is, an integral number in decimal, `"null"`,
   * `"true"`/`"false"`, and the empty string for arrays and objects.
   * Java's `Double.toString` is not stated here.
   */
  function AsText(v: Json): (r: Result<string>)
    ensures v.JStr? ==> r == Ok(v.s)
    ensures r.Fail? <==> v.JNum? && v.n.Double?
  {
    match v
    case JNull => Ok("null")
    case JBool(b) => Ok(if b then "true" else "false")
    case JNum(Int(i)) => Ok(JavaText.DecimalString(i))
    case JNum(Double(_)) => Fail(NotModelled("Double.toString"))
    case JStr(s) => Ok(s)
    case JArr(_) => Ok("")
    case JObj(_) => Ok("")
  }

  /** `booleanValue()`: the value of a boolean node, `false` for every other node. */
  function BooleanValue(v: Json): (b: bool)
    ensures b <==> v == JBool(true)
  {
    v.JBool? && v.b
  }

  const IntMin: int := -0x8000_0000
  const IntMax: int := 0x7fff_ffff

  /** Java's narrowing of a `long` or `BigInteger` to `int`: keep the low 32 bits, two's complement. */
  function ToInt32(i: int): (r: int)
    ensures IntMin <= r <= IntMax
    ensures (r - i) % 0x1_0000_0000 == 0
    ensures IntMin <= i <= IntMax ==> r == i
  {
    (i - IntMin) % 0x1_0000_0000 + IntMin
  }

  /** Java's `(int) d`: round toward zero, saturating at the bounds of `int`. */
  function DoubleToInt32(d: real): (r: int)
    ensures IntMin <= r <= IntMax
    ensures 0.0 <= d < IntMax as real ==> r as real <= d < (r + 1) as real
    ensures IntMin as real < d < 0.0 ==> (r - 1) as real < d <= r as real
    ensures d >= IntMax as real ==> r == IntMax
    ensures d <= IntMin as real ==> r == IntMin
  {
    if d >= IntMax as real then IntMax
    else if d <= IntMin as real then IntMin
    else if d >= 0.0 then d.Floor
    else -((-d).Floor)
  }

  /** `intValue()`: a number narrowed to `int`, 0 for every non-numeric node. */
  function IntValue(v: Json): (r: int)
    ensures IntMin <= r <= IntMax
    ensures !v.JNum? ==> r == 0
    ensures v.JNum? && v.n.Int? && IntMin <= v.n.i <= IntMax ==> r == v.n.i
  {
    match v
    case JNum(Int(i)) => ToInt32(i)
    case JNum(Double(d)) => DoubleToInt32(d)
    case _ => 0
  }

  /**
   * `asInt()`: like `intValue()` on numbers, 1/0 on booleans, 0 on `null` and
   * on containers. Parsing a numeric string is not stated here.
   */
  function AsInt(v: Json): (r: Result<int>)
    ensures r.Fail? <==> v.JStr?
    ensures v.JNum? ==> r == Ok(IntValue(v))
  {
    match v
    case JNum(_) => Ok(IntValue(v))
    case JBool(b) => Ok(if b then 1 else 0)
    case JStr(_) => Fail(NotModelled("parsing an int from text"))
    case _ => Ok(0)
  }

  /** A number as a floating-point value (rounding to a `double` is not modelled). */
  function NumberValue(n: Number): real {
    match n
    case Int(i) => i as real
    case Double(d) => d
  }

  /** `doubleValue()`: the number's value, 0.0 for every non-numeric node. */
  function DoubleValue(v: Json): (r: real)
    ensures v.JNum? ==> r == NumberValue(v.n)
    ensures !v.JNum? ==> r == 0.0
  {
    if v.JNum? then NumberValue(v.n) else 0.0
  }

  /**
   * `asDouble()`: like `doubleValue()` on numbers, 1.0/0.0 on booleans, 0.0 on
   * `null` and on containers. Parsing a numeric string is not stated here.
   */
  function AsDouble(v: Json): (r: Result<real>)
    ensures r.Fail? <==> v.JStr?
    ensures v.JNum? ==> r == Ok(NumberValue(v.n))
  {
    match v
    case JNum(n) => Ok(NumberValue(n))
    case JBool(b) => Ok(if b then 1.0 else 0.0)
    case JStr(_) => Fail(NotModelled("parsing a double from text"))
    case _ => Ok(0.0)
  }

  /** A floating-point node, as `ArrayNode.add(double)` creates it. */
  function DoubleNode(d: real): Json {
    JNum(Double(d))
  }

  /** The fields with the first one named `key` given value `x`, or with `key` appended. */
  function PutField(fields: seq<Field>, key: string, x: Json): (r: seq<Field>)
    ensures Lookup(r, key) == Some(x)
    ensures forall k :: k != key ==> Lookup(r, k) == Lookup(fields, k)
    ensures Lookup(fields, key).Some? ==> |r| == |fields| && forall i :: 0 <= i < |r| ==> r[i].key == fields[i].key
    ensures Lookup(fields, key).None? ==> r == fields + [Field(key, x)]
  {
    if fields == [] then [Field(key, x)]
    else if fields[0].key == key then [Field(key, x)] + fields[1..]
    else [fields[0]] + PutField(fields[1..], key, x)
  }

  /**
   * `ObjectNode.set(key, x)` / `put(key, x)`: an existing field keeps its
   * position and gets the new value; a new field goes last.
   */
  function Put(v: Json, key: string, x: Json): (r: Json)
    requires v.JObj?
    ensures r.JObj?
    ensures Get(r, key) == Some(x)
    ensures forall k :: k != key ==> Get(r, k) == Get(v, k)
    ensures Has(v, key) ==> Keys(r) == Keys(v)
    ensures !Has(v, key) ==> Keys(r) == Keys(v) + [key]
  {
    var r := JObj(PutField(v.fields, key, x));
    assert Has(v, key) ==> Keys(r) == Keys(v);
    assert !Has(v, key) ==> Keys(r) == Keys(v) + [key];
    r
  }

  /** The key list `ks` with every `key` dropped, the other keys in their order. */
  function Without(ks: seq<string>, key: string): (r: seq<string>)
    ensures |r| <= |ks|
    ensures forall i :: 0 <= i < |r| ==> r[i] != key
    ensures forall k :: k != key ==> (k in r <==> k in ks)
    ensures key !in ks ==> r == ks
  {
    if ks == [] then []
    else if ks[0] == key then Without(ks[1..], key)
    else [ks[0]] + Without(ks[1..], key)
  }

  /** `put` leaves the value of any other key as it was. */
  lemma PutKeepsOther(v: Json, key: string, x: Json, k: string)
    requires v.JObj? && k != key
    ensures Get(Put(v, key, x), k) == Get(v, k)
  {
  }

  /** The fields without those named `key`, the others in their order. */
  function RemoveField(fields: seq<Field>, key: string): (r: seq<Field>)
    ensures Lookup(r, key) == None
    ensures forall k :: k != key ==> Lookup(r, k) == Lookup(fields, k)
    ensures Keys(JObj(r)) == Without(Keys(JObj(fields)), key)
  {
    if fields == [] then []
    else
      var rest := RemoveField(fields[1..], key);
      assert fields == [fields[0]] + fields[1..];
      KeysAppend([fields[0]], fields[1..]);
      KeysAppend([fields[0]], rest);
      if fields[0].key == key then rest else [fields[0]] + rest
  }

  /**
   * `ObjectNode.remove(key)`: the field is gone, and every other key keeps
   * its value and its place in the order.
   */
  function Remove(v: Json, key: string): (r: Json)
    requires v.JObj?
    ensures r.JObj?
    ensures !Has(r, key)
    ensures forall k :: k != key ==> Get(r, k) == Get(v, k)
    ensures Keys(r) == Without(Keys(v), key)
  {
    JObj(RemoveField(v.fields, key))
  }

  /** The container `c` with its elements (array items or object values) replaced, in place, by `es`. */
  function WithElements(c: Json, es: seq<Json>): (r: Json)
    requires |es| == |Elements(c)|
    ensures Elements(r) == es
    ensures r.JArr? == c.JArr? && r.JObj? == c.JObj?
    ensures Keys(r) == Keys(c)
    ensures !c.JArr? && !c.JObj? ==> r == c
  {
    match c
    case JArr(_) => JArr(es)
    case JObj(fields) =>
      var r := JObj(seq(|fields|, i requires 0 <= i < |fields| => Field(fields[i].key, es[i])));
      assert Elements(r) == es;
      r
    case _ => c
  }

  /** Looking a key up in two field lists one after the other. */
  lemma LookupAppend(a: seq<Field>, b: seq<Field>, key: string)
    ensures Lookup(a + b, key) == if Lookup(a, key).Some? then Lookup(a, key) else Lookup(b, key)
  {
    if a == [] {
      assert a + b == b;
    } else {
      assert (a + b)[0] == a[0];
      assert (a + b)[1..] == a[1..] + b;
      LookupAppend(a[1..], b, key);
    }
  }

  /** The keys of two field lists one after the other. */
  lemma KeysAppend(a: seq<Field>, b: seq<Field>)
    ensures Keys(JObj(a + b)) == Keys(JObj(a)) + Keys(JObj(b))
  {
  }
}
