/** JSON values and the ordered JSON object that backs every Box model object.

    A JSON object is an ordered sequence of members. A lookup finds the first
    member with the name; an add replaces that member in place, or appends a
    new member at the end when the name is not there yet. The accessors
    `AsString`, `AsBool`, ... are the minimal-json `JsonValue.asX` conversions
    the core calls: each throws UnsupportedOperationException on a value of
    another kind. */
module JsonValues {
  import opened Failures

  datatype Json =
    | JNull
    | JBool(b: bool)
    | JNumber(n: int)
    | JString(s: string)
    | JArray(items: seq<Json>)
    | JObject(members: Object)

  datatype Member = Member(name: string, value: Json)

  /** A JSON object: its members in document order. */
  type Object = seq<Member>

  const MIN_INT: int := -0x8000_0000
  const MAX_INT: int := 0x7fff_ffff
  const MIN_LONG: int := -0x8000_0000_0000_0000
  const MAX_LONG: int := 0x7fff_ffff_ffff_ffff

  /** The member names in document order (`JsonObject.names()`). */
  function Names(obj: Object): (r: seq<string>)
    ensures |r| == |obj|
  {
    seq(|obj|, i requires 0 <= i < |obj| => obj[i].name)
  }

  /** No two members share a name. */
  predicate UniqueNames(obj: Object) {
    forall i, j :: 0 <= i < j < |obj| ==> obj[i].name != obj[j].name
  }

  /** Position of the first member called `name`, or |obj| if there is none. */
  function Find(obj: Object, name: string): (k: nat)
    ensures k <= |obj|
    ensures forall j :: 0 <= j < k ==> obj[j].name != name
    ensures k < |obj| ==> obj[k].name == name
    ensures k == |obj| <==> name !in Names(obj)
  {
    if obj == [] then 0
    else if obj[0].name == name then assert Names(obj)[0] == name; 0
    else
      var k := Find(obj[1..], name);
      assert k < |obj| - 1 ==> Names(obj)[k + 1] == name;
      assert name in Names(obj) ==> exists i :: 0 <= i < |obj| && Names(obj)[i] == name;
      1 + k
  }

  /** `JsonObject.get(name)`: the value of the first member called `name`. */
  function Get(obj: Object, name: string): (r: Option<Json>)
    ensures r.None? <==> name !in Names(obj)
  {
    var k := Find(obj, name);
    if k < |obj| then Some(obj[k].value) else None
  }

  /** `JsonObject.add(name, value)`, taken as replace-in-place. */
  function Add(obj: Object, name: string, value: Json): (r: Object)
  {
    var k := Find(obj, name);
    if k < |obj| then obj[k := Member(name, value)] else obj + [Member(name, value)]
  }

  /** The object without any member called `name`, order otherwise kept. */
  function Remove(obj: Object, name: string): (r: Object)
    ensures |r| <= |obj|
    ensures forall i :: 0 <= i < |r| ==> r[i].name != name
    ensures forall m :: m in r ==> m in obj
  {
    if obj == [] then []
    else if obj[0].name == name then Remove(obj[1..], name)
    else [obj[0]] + Remove(obj[1..], name)
  }

  /** A read after an add sees the added value; every other name reads as before. */
  lemma GetAdd(obj: Object, name: string, value: Json, other: string)
    ensures Get(Add(obj, name, value), name) == Some(value)
    ensures other != name ==> Get(Add(obj, name, value), other) == Get(obj, other)
  {
    var k := Find(obj, name);
    var r := Add(obj, name, value);
    FindFirst(r, name, k);
    if other != name {
      var j := Find(obj, other);
      if j < |obj| {
        FindFirst(r, other, j);
      } else {
        FindFirst(r, other, |r|);
      }
    }
  }

  /** A lookup examines the members front to back. */
  lemma GetCons(obj: Object, name: string)
    requires obj != []
    ensures Get(obj, name) ==
      if obj[0].name == name then Some(obj[0].value) else Get(obj[1..], name)
  {
  }

  /** Any position that is the first one carrying `name` is what Find returns. */
  lemma FindFirst(obj: Object, name: string, k: nat)
    requires k <= |obj|
    requires forall j :: 0 <= j < k ==> obj[j].name != name
    requires k < |obj| ==> obj[k].name == name
    ensures Find(obj, name) == k
  {
  }

  /** An add keeps the key order: an existing name stays where it is, a new one
      goes last (an add replaces in place, as `Add` is defined). */
  lemma NamesAdd(obj: Object, name: string, value: Json)
    ensures Names(Add(obj, name, value)) ==
      if name in Names(obj) then Names(obj) else Names(obj) + [name]
  {
  }

  /** An add keeps the names unique. */
  lemma AddKeepsUnique(obj: Object, name: string, value: Json)
    requires UniqueNames(obj)
    ensures UniqueNames(Add(obj, name, value))
  {
  }

  /** Removing a name hides it and leaves every other name readable as before. */
  lemma {:induction false} GetRemove(obj: Object, name: string, other: string)
    ensures Get(Remove(obj, name), name) == None
    ensures other != name ==> Get(Remove(obj, name), other) == Get(obj, other)
  {
    if obj != [] {
      GetRemove(obj[1..], name, other);
      GetCons(obj, other);
      if obj[0].name != name {
        GetCons(Remove(obj, name), other);
        assert Remove(obj, name)[1..] == Remove(obj[1..], name);
      }
    }
  }

  /** In an object with unique names, each member is what a lookup of its name yields. */
  lemma GetUnique(obj: Object, i: nat)
    requires UniqueNames(obj) && i < |obj|
    ensures Get(obj, obj[i].name) == Some(obj[i].value)
  {
    FindFirst(obj, obj[i].name, i);
  }

  /** `JsonValue.asString()`. */
  function AsString(v: Json): (r: Result<string>)
    ensures r.Ok? <==> v.JString?
    ensures r.Ok? ==> v == JString(r.value)
    ensures r.Err? ==> r.error == UnsupportedOperation
  {
    if v.JString? then Ok(v.s) else Err(UnsupportedOperation)
  }

  /** `JsonValue.asBoolean()`. */
  function AsBool(v: Json): (r: Result<bool>)
    ensures r.Ok? <==> v.JBool?
    ensures r.Ok? ==> v == JBool(r.value)
    ensures r.Err? ==> r.error == UnsupportedOperation
  {
    if v.JBool? then Ok(v.b) else Err(UnsupportedOperation)
  }

  /** `JsonValue.asArray()`. */
  function AsArray(v: Json): (r: Result<seq<Json>>)
    ensures r.Ok? <==> v.JArray?
    ensures r.Ok? ==> v == JArray(r.value)
    ensures r.Err? ==> r.error == UnsupportedOperation
  {
    if v.JArray? then Ok(v.items) else Err(UnsupportedOperation)
  }

  /** `JsonValue.asObject()`. */
  function AsObject(v: Json): (r: Result<Object>)
    ensures r.Ok? <==> v.JObject?
    ensures r.Ok? ==> v == JObject(r.value)
    ensures r.Err? ==> r.error == UnsupportedOperation
  {
    if v.JObject? then Ok(v.members) else Err(UnsupportedOperation)
  }

  /** `JsonValue.asInt()`: a number that does not fit a Java int is a NumberFormatException. */
  function AsInt(v: Json): (r: Result<int>)
    ensures r.Ok? <==> v.JNumber? && MIN_INT <= v.n <= MAX_INT
    ensures r.Ok? ==> v == JNumber(r.value)
    ensures r.Err? ==> r.error == (if v.JNumber? then NumberFormat else UnsupportedOperation)
  {
    if !v.JNumber? then Err(UnsupportedOperation)
    else if MIN_INT <= v.n <= MAX_INT then Ok(v.n)
    else Err(NumberFormat)
  }

  /** `JsonValue.asLong()`: a number that does not fit a Java long is a NumberFormatException. */
  function AsLong(v: Json): (r: Result<int>)
    ensures r.Ok? <==> v.JNumber? && MIN_LONG <= v.n <= MAX_LONG
    ensures r.Ok? ==> v == JNumber(r.value)
    ensures r.Err? ==> r.error == (if v.JNumber? then NumberFormat else UnsupportedOperation)
  {
    if !v.JNumber? then Err(UnsupportedOperation)
    else if MIN_LONG <= v.n <= MAX_LONG then Ok(v.n)
    else Err(NumberFormat)
  }
}
