/** `BoxIterator`: one page (offset, limit, total count and the entries) of a
    larger collection held by the server, read through the `CacheMap` of the
    object it extends.

    The snapshot the class writes for Java serialization is modelled as a
    sequence of records: a header text holding every field except `entries`,
    then a count, then that many element texts (a count of -1 means none).
    JSON text is represented by the JSON value it encodes. */
module BoxIterators {
  import opened Failures
  import opened JsonValues
  import opened JsonObjects

  const FIELD_TOTAL_COUNT: string := "total_count"
  const FIELD_ENTRIES: string := "entries"
  const FIELD_OFFSET: string := "offset"
  const FIELD_LIMIT: string := "limit"

  /** One record of the snapshot stream: a `writeUTF` text or a `writeInt` count. */
  datatype Record = Text(json: Json) | Count(n: int)

  /** The header `writeObject` builds: for each name in `names`, in order, except
      `entries`, the document's value is added to an initially empty object. */
  function Header(doc: Object, names: seq<string>): (h: Object)
    requires forall p :: p in names ==> p in Names(doc)
  {
    if names == [] then []
    else
      var h := Header(doc, names[..|names| - 1]);
      var p := names[|names| - 1];
      if p == FIELD_ENTRIES then h else Add(h, p, Get(doc, p).value)
  }

  /** The element records of a snapshot. */
  function ElementRecords(items: seq<Json>): (r: seq<Record>)
    ensures |r| == |items| && forall i :: 0 <= i < |items| ==> r[i] == Text(items[i])
  {
    seq(|items|, i requires 0 <= i < |items| => Text(items[i]))
  }

  /** `writeObject`, for a cache that agrees with the document: the header, then
      -1 when `entries` is JSON null or empty, else the entry count and each entry.
      An absent `entries` field throws, and so does an entry that is not an object
      (`size()` converts every entry). */
  function Encode(doc: Object): (r: Result<seq<Record>>)
  {
    var header := Text(JObject(Header(doc, Names(doc))));
    match Get(doc, FIELD_ENTRIES)
    case None => Err(NullPointer)
    case Some(JNull) => Ok([header, Count(-1)])
    case Some(JArray(items)) =>
      if items == [] then Ok([header, Count(-1)])
      else if !AllObjects(items) then Err(UnsupportedOperation)
      else Ok([header, Count(|items|)] + ElementRecords(items))
    case Some(_) => Err(UnsupportedOperation)
  }

  /** The `cap` element objects that follow the count: each must be a text holding
      a JSON object; a stream that ends early throws EOFException. */
  function Elements(rest: seq<Record>, cap: nat): (r: Result<seq<Object>>)
    ensures r.Ok? ==> (cap <= |rest| && |r.value| == cap &&
      forall k :: 0 <= k < cap ==> rest[k] == Text(JObject(r.value[k])))
    decreases cap
  {
    if cap == 0 then Ok([])
    else if rest == [] then Err(EndOfFile)
    else match rest[0]
      case Count(_) => Err(StreamCorrupted)
      case Text(v) =>
        if !v.JObject? then Err(UnsupportedOperation)
        else match Elements(rest[1..], cap - 1)
          case Err(e) => Err(e)
          case Ok(objects) => Ok([v.members] + objects)
  }

  /** The header and the count of a snapshot, or the exception reading them throws. */
  function ReadHead(records: seq<Record>): Result<(Object, int)> {
    if |records| == 0 then Err(EndOfFile)
    else if records[0].Count? then Err(StreamCorrupted)
    else if !records[0].json.JObject? then Err(UnsupportedOperation)
    else if |records| == 1 then Err(EndOfFile)
    else if records[1].Text? then Err(StreamCorrupted)
    else Ok((records[0].json.members, records[1].n))
  }

  /** `readObject` as written: the header becomes the document; with a count of
      zero or more, `entries` is set to `[]` and every element is read, but each
      `addInJsonArray` appends to a copy, so `entries` stays empty. */
  function DecodeAsWritten(records: seq<Record>): (r: Result<Object>)
  {
    match ReadHead(records)
    case Err(e) => Err(e)
    case Ok((header, cap)) =>
      if cap < 0 then Ok(header)
      else match Elements(records[2..], cap)
        case Err(e) => Err(e)
        case Ok(_) => Ok(Add(header, FIELD_ENTRIES, JArray([])))
  }

  /** `readObject` as evidently intended: the elements read become `entries`. */
  function Decode(records: seq<Record>): (r: Result<Object>)
  {
    match ReadHead(records)
    case Err(e) => Err(e)
    case Ok((header, cap)) =>
      if cap < 0 then Ok(header)
      else match Elements(records[2..], cap)
        case Err(e) => Err(e)
        case Ok(objects) => Ok(Add(header, FIELD_ENTRIES, JArray(Wrap(objects))))
  }

  /** Objects as JSON values. */
  function Wrap(objects: seq<Object>): (r: seq<Json>)
    ensures |r| == |objects| && forall k :: 0 <= k < |objects| ==> r[k] == JObject(objects[k])
  {
    seq(|objects|, k requires 0 <= k < |objects| => JObject(objects[k]))
  }

  /** What a snapshot round trip should give back: every field but `entries` in
      its place, then `entries` last when it held at least one element. A JSON-null
      or empty `entries` is written as -1 and comes back absent. */
  function Restored(doc: Object): Object {
    var rest := Remove(doc, FIELD_ENTRIES);
    match Get(doc, FIELD_ENTRIES)
    case Some(JArray(items)) =>
      if items == [] then rest else rest + [Member(FIELD_ENTRIES, JArray(items))]
    case _ => rest
  }

  /** Removing a name distributes over appending one member. */
  lemma {:induction false} RemoveSnoc(obj: Object, m: Member, name: string)
    ensures Remove(obj + [m], name) == Remove(obj, name) + (if m.name == name then [] else [m])
  {
    if obj != [] {
      assert (obj + [m])[1..] == obj[1..] + [m];
      RemoveSnoc(obj[1..], m, name);
    }
  }

  /** For unique names, the header is the document without `entries`, in order. */
  lemma {:induction false} HeaderIsRemove(doc: Object, k: nat)
    requires UniqueNames(doc) && k <= |doc|
    ensures forall p :: p in Names(doc)[..k] ==> p in Names(doc)
    ensures Header(doc, Names(doc)[..k]) == Remove(doc[..k], FIELD_ENTRIES)
  {
    if k > 0 {
      HeaderIsRemove(doc, k - 1);
      var names := Names(doc)[..k];
      assert names[..k - 1] == Names(doc)[..k - 1];
      var m := doc[k - 1];
      assert doc[..k] == doc[..k - 1] + [m];
      RemoveSnoc(doc[..k - 1], m, FIELD_ENTRIES);
      if m.name != FIELD_ENTRIES {
        GetUnique(doc, k - 1);
        var h := Remove(doc[..k - 1], FIELD_ENTRIES);
        forall i | 0 <= i < |h| ensures h[i].name != m.name {
          assert h[i] in doc[..k - 1];
        }
        FindFirst(h, m.name, |h|);
      }
    }
  }

  /** The corrected decoder undoes the encoder: the snapshot of a document with
      unique names decodes to `Restored(doc)`. */
  lemma EncodeDecode(doc: Object)
    requires UniqueNames(doc)
    requires Encode(doc).Ok?
    ensures Decode(Encode(doc).value) == Ok(Restored(doc))
  {
    HeaderIsRemove(doc, |doc|);
    assert doc[..|doc|] == doc;
    assert Names(doc)[..|doc|] == Names(doc);
    var header := Remove(doc, FIELD_ENTRIES);
    var records := Encode(doc).value;
    match Get(doc, FIELD_ENTRIES)
    case Some(JNull) =>
      assert ReadHead(records) == Ok((header, -1));
    case Some(JArray(items)) =>
      if items == [] {
        assert ReadHead(records) == Ok((header, -1));
      } else {
        assert ReadHead(records) == Ok((header, |items|));
        ElementsOfEncoded(items);
        assert records[2..] == ElementRecords(items);
        GetRemove(doc, FIELD_ENTRIES, FIELD_ENTRIES);
        FindFirst(header, FIELD_ENTRIES, |header|);
        assert Wrap(Elements(records[2..], |items|).value) == items;
      }
    case _ =>
  }

  /** Element records of objects read back as those objects. */
  lemma {:induction false} ElementsOfEncoded(items: seq<Json>)
    requires AllObjects(items)
    ensures Elements(ElementRecords(items), |items|).Ok?
    ensures Wrap(Elements(ElementRecords(items), |items|).value) == items
  {
    if items != [] {
      ElementsOfEncoded(items[1..]);
      assert ElementRecords(items)[1..] == ElementRecords(items[1..]);
    }
  }

  /** A round trip keeps every field other than `entries`. */
  lemma RestoredKeepsFields(doc: Object, f: string)
    requires f != FIELD_ENTRIES
    ensures Get(Restored(doc), f) == Get(doc, f)
  {
    var rest := Remove(doc, FIELD_ENTRIES);
    GetRemove(doc, FIELD_ENTRIES, f);
    match Get(doc, FIELD_ENTRIES)
    case Some(JArray(items)) =>
      if items != [] {
        GetSnoc(rest, Member(FIELD_ENTRIES, JArray(items)), f);
      }
    case _ =>
  }

  /** A round trip keeps a non-empty `entries` array and drops an empty or null one. */
  lemma RestoredEntries(doc: Object)
    ensures Get(Restored(doc), FIELD_ENTRIES) ==
      match Get(doc, FIELD_ENTRIES)
      case Some(JArray(items)) => if items == [] then None else Some(JArray(items))
      case _ => None
  {
    var rest := Remove(doc, FIELD_ENTRIES);
    GetRemove(doc, FIELD_ENTRIES, FIELD_ENTRIES);
    match Get(doc, FIELD_ENTRIES)
    case Some(JArray(items)) =>
      if items != [] {
        GetSnoc(rest, Member(FIELD_ENTRIES, JArray(items)), FIELD_ENTRIES);
      }
    case _ =>
  }

  /** A lookup in an object with one member appended. */
  lemma GetSnoc(obj: Object, m: Member, f: string)
    ensures Get(obj + [m], f) ==
      if Get(obj, f).Some? then Get(obj, f) else if m.name == f then Some(m.value) else None
  {
    var k := Find(obj, f);
    if k < |obj| {
      FindFirst(obj + [m], f, k);
    } else {
      FindFirst(obj + [m], f, if m.name == f then |obj| else |obj| + 1);
    }
  }

  /** The source's decoder loses every entry: any snapshot with at least one
      entry decodes to a document whose `entries` is the empty array. */
  lemma DecodeAsWrittenLosesEntries(doc: Object, items: seq<Json>)
    requires Get(doc, FIELD_ENTRIES) == Some(JArray(items)) && items != []
    requires Encode(doc).Ok?
    ensures DecodeAsWritten(Encode(doc).value).Ok?
    ensures Get(DecodeAsWritten(Encode(doc).value).value, FIELD_ENTRIES) == Some(JArray([]))
    ensures Get(DecodeAsWritten(Encode(doc).value).value, FIELD_ENTRIES) != Get(doc, FIELD_ENTRIES)
  {
    var records := Encode(doc).value;
    var header := Header(doc, Names(doc));
    assert ReadHead(records) == Ok((header, |items|));
    ElementsOfEncoded(items);
    assert records[2..] == ElementRecords(items);
    GetAdd(header, FIELD_ENTRIES, JArray([]), FIELD_ENTRIES);
  }

  /** A one-entry page, written and read back by the source, has no entries left. */
  lemma OneEntryPageLost()
    ensures var page := [Member(FIELD_ENTRIES, JArray([JObject([])]))];
      Encode(page) == Ok([Text(JObject([])), Count(1), Text(JObject([]))]) &&
      DecodeAsWritten(Encode(page).value) == Ok([Member(FIELD_ENTRIES, JArray([]))])
  {
    var page := [Member(FIELD_ENTRIES, JArray([JObject([])]))];
    assert Names(page) == [FIELD_ENTRIES];
    assert Names(page)[..0] == [];
    assert Header(page, Names(page)) == [];
    assert Get(page, FIELD_ENTRIES) == Some(JArray([JObject([])]));
    assert ElementRecords([JObject([])]) == [Text(JObject([]))];
    var records := [Text(JObject([])), Count(1), Text(JObject([]))];
    assert AllObjects([JObject([])]);
    assert [Text(JObject([])), Count(1)] + [Text(JObject([]))] == records;
    assert Encode(page) == Ok(records);
    assert records[2..] == [Text(JObject([]))];
    assert records[2..][1..] == [];
    assert Elements([], 0) == Ok([]);
    var none: Object := [];
    var nothing: seq<Object> := [];
    assert [none] + nothing == [none];
    assert Elements(records[2..], 1) == Ok([none]);
    assert Add([], FIELD_ENTRIES, JArray([])) == [Member(FIELD_ENTRIES, JArray([]))];
  }

  /** `BoxIterator`: the object it extends (`base`, whose `CacheMap` holds the
      page) and the creator of its elements (`getObjectCreator()`). */
  class BoxIterator<E> {
    const base: BoxJsonObject<E>
    const creator: Object -> E

    constructor (json: Object, creator: Object -> E)
      ensures fresh(base) && fresh(base.cacheMap)
      ensures base.cacheMap.doc == json && base.cacheMap.cache == map[]
      ensures this.creator == creator
    {
      base := new BoxJsonObject(json);
      this.creator := creator;
    }

    ghost function Doc(): Object
      reads base, base.cacheMap
    {
      base.cacheMap.doc
    }

    /** The cached `entries` list, if any, is the creator applied to the current
        `entries` array. */
    ghost predicate EntriesCoherent()
      reads base, base.cacheMap
    {
      var cache := base.cacheMap.cache;
      FIELD_ENTRIES in cache ==>
        cache[FIELD_ENTRIES].CachedEntities? &&
        JsonValues.Get(Doc(), FIELD_ENTRIES).Some? &&
        EntityArrayOfValue(JsonValues.Get(Doc(), FIELD_ENTRIES).value, creator) == Ok(Some(cache[FIELD_ENTRIES].entities))
    }

    /** `offset()`. */
    function Offset(): (r: Result<Option<int>>)
      reads base, base.cacheMap
      ensures r == Ok(None) <==> JsonValues.Get(Doc(), FIELD_OFFSET) == Some(JNull)
      ensures forall n :: r == Ok(Some(n)) <==> JsonValues.Get(Doc(), FIELD_OFFSET) == Some(JNumber(n))
      ensures r == Err(NullPointer) <==> JsonValues.Get(Doc(), FIELD_OFFSET) == None
    {
      base.PropertyAsLong(FIELD_OFFSET)
    }

    /** `limit()`. */
    function Limit(): (r: Result<Option<int>>)
      reads base, base.cacheMap
      ensures r == Ok(None) <==> JsonValues.Get(Doc(), FIELD_LIMIT) == Some(JNull)
      ensures forall n :: r == Ok(Some(n)) <==> JsonValues.Get(Doc(), FIELD_LIMIT) == Some(JNumber(n))
      ensures r == Err(NullPointer) <==> JsonValues.Get(Doc(), FIELD_LIMIT) == None
    {
      base.PropertyAsLong(FIELD_LIMIT)
    }

    /** `fullSize()`: the `total_count` field. */
    function FullSize(): (r: Result<Option<int>>)
      reads base, base.cacheMap
      ensures r == Ok(None) <==> JsonValues.Get(Doc(), FIELD_TOTAL_COUNT) == Some(JNull)
      ensures forall n :: r == Ok(Some(n)) <==> JsonValues.Get(Doc(), FIELD_TOTAL_COUNT) == Some(JNumber(n))
      ensures r == Err(NullPointer) <==> JsonValues.Get(Doc(), FIELD_TOTAL_COUNT) == None
    {
      base.PropertyAsLong(FIELD_TOTAL_COUNT)
    }

    /** `getEntries()`: built once through the creator, then served from the cache. */
    method GetEntries() returns (r: Result<Option<seq<E>>>)
      modifies base.cacheMap
      ensures Doc() == old(Doc())
      ensures Step(r, base.cacheMap.cache) == ReadEntityArray(Doc(), old(base.cacheMap.cache), FIELD_ENTRIES, creator)
      ensures old(EntriesCoherent()) ==> EntriesCoherent() && r == UncachedEntityArray(Doc(), FIELD_ENTRIES, creator)
    {
      r := base.cacheMap.GetAsJsonObjectArray(creator, FIELD_ENTRIES);
    }

    /** `size()`: 0 when `entries` is JSON null, else the length of the entries list. */
    method Size() returns (r: Result<int>)
      modifies base.cacheMap
      ensures Doc() == old(Doc())
      ensures base.cacheMap.cache == ReadEntityArray(Doc(), old(base.cacheMap.cache), FIELD_ENTRIES, creator).cache
      ensures r.Ok? ==> r.value >= 0
      ensures old(EntriesCoherent()) ==> EntriesCoherent() && r == SizeOf(Doc())
    {
      var entries := GetEntries();
      if entries.Err? {
        return Err(entries.error);
      }
      if entries.value.None? {
        return Ok(0);
      }
      var again := GetEntries();
      assert again == entries;
      return Ok(|again.value.value|);
    }

    /** `get(index)`: element `index` of the entries list; an index outside
        [0, size()) throws. */
    method Get(index: int) returns (r: Result<E>)
      modifies base.cacheMap
      ensures Doc() == old(Doc())
      ensures base.cacheMap.cache == ReadEntityArray(Doc(), old(base.cacheMap.cache), FIELD_ENTRIES, creator).cache
      ensures old(EntriesCoherent()) ==> EntriesCoherent() && r == ElementAt(Doc(), index, creator)
    {
      var entries := GetEntries();
      if entries.Err? {
        return Err(entries.error);
      }
      if entries.value.None? {
        return Err(NullPointer);
      }
      var list := entries.value.value;
      if !(0 <= index < |list|) {
        return Err(IndexOutOfBounds);
      }
      return Ok(list[index]);
    }

    /** `iterator()`: the entries in order, or nothing when `entries` is JSON null. */
    method Iterator() returns (r: Result<seq<E>>)
      modifies base.cacheMap
      ensures Doc() == old(Doc())
      ensures base.cacheMap.cache == ReadEntityArray(Doc(), old(base.cacheMap.cache), FIELD_ENTRIES, creator).cache
      ensures old(EntriesCoherent()) ==> EntriesCoherent() && r == EntryList(Doc(), creator)
    {
      var entries := GetEntries();
      if entries.Err? {
        return Err(entries.error);
      }
      if entries.value.None? {
        return Ok([]);
      }
      var again := GetEntries();
      assert again == entries;
      return Ok(again.value.value);
    }

    /** `writeObject`. */
    method WriteObject() returns (r: Result<seq<Record>>)
      modifies base.cacheMap
      ensures Doc() == old(Doc())
      ensures base.cacheMap.cache ==
        if HasEntries(Doc()) then ReadEntityArray(Doc(), old(base.cacheMap.cache), FIELD_ENTRIES, creator).cache
        else old(base.cacheMap.cache)
      ensures old(EntriesCoherent()) ==> EntriesCoherent() && r == Encode(Doc())
    {
      var header := WriteHeader();
      var arr := base.cacheMap.GetAsJsonArray(FIELD_ENTRIES);
      if arr.Err? {
        return Err(arr.error);
      }
      if arr.value.None? || arr.value.value == [] {
        return Ok([Text(JObject(header)), Count(-1)]);
      }
      var items := arr.value.value;
      ghost var coherent := EntriesCoherent();
      var size := Size();
      if size.Err? {
        return Err(size.error);
      }
      assert coherent ==> size.value == |items|;
      var records := [Text(JObject(header)), Count(size.value)];
      for i := 0 to size.value
        invariant i <= |items|
        invariant records == [Text(JObject(header)), Count(size.value)] + ElementRecords(items[..i])
      {
        if i >= |items| {
          return Err(IndexOutOfBounds);
        }
        assert items[..i + 1] == items[..i] + [items[i]];
        records := records + [Text(items[i])];
      }
      assert coherent ==> items[..size.value] == items;
      return Ok(records);
    }

    /** The header loop of `writeObject`: every field but `entries`, in key order. */
    method WriteHeader() returns (header: Object)
      ensures header == Header(Doc(), Names(Doc()))
    {
      header := [];
      var properties := base.PropertiesKeySet();
      for i := 0 to |properties|
        invariant forall p :: p in properties[..i] ==> p in Names(Doc())
        invariant header == Header(Doc(), properties[..i])
      {
        assert properties[..i + 1] == properties[..i] + [properties[i]];
        var property := properties[i];
        if property != FIELD_ENTRIES {
          var value := base.PropertyValue(property);
          header := Add(header, property, value.value);
        }
      }
      assert properties[..|properties|] == properties;
    }

    /** `readObject`, as written: see `DecodeAsWritten`. */
    method ReadObject(records: seq<Record>) returns (r: Outcome)
      modifies base
      ensures r == Done <==> DecodeAsWritten(records).Ok?
      ensures r == Done ==> fresh(base.cacheMap) && Doc() == DecodeAsWritten(records).value
      ensures r == Done ==> base.cacheMap.cache == map[]
      ensures r.Threw? ==> r.error == DecodeAsWritten(records).error
    {
      if |records| == 0 {
        return Threw(EndOfFile);
      }
      if records[0].Count? {
        return Threw(StreamCorrupted);
      }
      if !records[0].json.JObject? {
        return Threw(UnsupportedOperation);
      }
      var header := records[0].json.members;
      base.CreateFromJson(header);
      if |records| == 1 {
        return Threw(EndOfFile);
      }
      if records[1].Text? {
        return Threw(StreamCorrupted);
      }
      var cap := records[1].n;
      if cap >= 0 {
        base.cacheMap.Set(FIELD_ENTRIES, JArray([]));
        for i := 0 to cap
          invariant 2 + i <= |records|
          invariant fresh(base.cacheMap)
          invariant Doc() == Add(header, FIELD_ENTRIES, JArray([]))
          invariant base.cacheMap.cache == map[]
          invariant Alike(Elements(records[2..], cap), Elements(records[2 + i..], cap - i))
        {
          if 2 + i == |records| {
            return Threw(EndOfFile);
          }
          var child := records[2 + i];
          if child.Count? {
            return Threw(StreamCorrupted);
          }
          if !child.json.JObject? {
            return Threw(UnsupportedOperation);
          }
          GetAdd(header, FIELD_ENTRIES, JArray([]), FIELD_ENTRIES);
          var added := base.cacheMap.AddInJsonArray(FIELD_ENTRIES, child.json.members);
          assert records[2 + i..][1..] == records[2 + i + 1..];
        }
      }
      return Done;
    }
  }

  /** Two results that both succeed, or fail with the same exception. */
  predicate Alike<T, U>(a: Result<T>, b: Result<U>) {
    a.Ok? == b.Ok? && (a.Err? ==> a.error == b.error)
  }

  /** Two pages whose `entries` fields are equal are the same collection, whatever
      their `offset` and `limit` say: `size()`, `iterator()` and every `get(i)`
      agree (a page with offset 0 and limit 3 equals one with limit 100). */
  lemma SamePageSameEntries<E>(d1: Object, d2: Object, creator: Object -> E)
    requires Get(d1, FIELD_ENTRIES) == Get(d2, FIELD_ENTRIES)
    ensures SizeOf(d1) == SizeOf(d2)
    ensures EntryList(d1, creator) == EntryList(d2, creator)
    ensures forall i :: ElementAt(d1, i, creator) == ElementAt(d2, i, creator)
  {
  }

  /** `entries` is a non-empty JSON array: the case in which `writeObject`
      goes on to call `size()`. */
  predicate HasEntries(doc: Object) {
    match Get(doc, FIELD_ENTRIES)
    case Some(JArray(items)) => items != []
    case _ => false
  }

  /** Every element of a JSON array is an object. */
  predicate AllObjects(items: seq<Json>) {
    forall k :: 0 <= k < |items| ==> items[k].JObject?
  }

  /** What `size()` returns when the cache agrees with the document. */
  function SizeOf(doc: Object): (r: Result<int>)
    ensures Get(doc, FIELD_ENTRIES) == Some(JNull) ==> r == Ok(0)
    ensures forall items: seq<Json> :: Get(doc, FIELD_ENTRIES) == Some(JArray(items)) ==>
      r == if AllObjects(items) then Ok(|items|) else Err(UnsupportedOperation)
    ensures Get(doc, FIELD_ENTRIES) == None ==> r == Err(NullPointer)
    ensures r.Ok? ==> r.value >= 0
  {
    match Get(doc, FIELD_ENTRIES)
    case None => Err(NullPointer)
    case Some(JNull) => Ok(0)
    case Some(JArray(items)) => if AllObjects(items) then Ok(|items|) else Err(UnsupportedOperation)
    case Some(_) => Err(UnsupportedOperation)
  }

  /** What `get(index)` returns when the cache agrees with the document. */
  function ElementAt<E>(doc: Object, index: int, creator: Object -> E): (r: Result<E>)
    ensures Get(doc, FIELD_ENTRIES) == Some(JNull) ==> r == Err(NullPointer)
    ensures Get(doc, FIELD_ENTRIES) == None ==> r == Err(NullPointer)
    ensures forall items: seq<Json> :: Get(doc, FIELD_ENTRIES) == Some(JArray(items)) && AllObjects(items) ==>
      (r.Ok? <==> 0 <= index < |items|) &&
      (r.Ok? ==> r.value == creator(items[index].members)) &&
      (r.Err? ==> r.error == IndexOutOfBounds)
  {
    match UncachedEntityArray(doc, FIELD_ENTRIES, creator)
    case Err(e) => Err(e)
    case Ok(None) => Err(NullPointer)
    case Ok(Some(entries)) =>
      if 0 <= index < |entries| then Ok(entries[index]) else Err(IndexOutOfBounds)
  }

  /** What `iterator()` walks when the cache agrees with the document. */
  function EntryList<E>(doc: Object, creator: Object -> E): (r: Result<seq<E>>)
    ensures Get(doc, FIELD_ENTRIES) == Some(JNull) ==> r == Ok([])
    ensures Get(doc, FIELD_ENTRIES) == None ==> r == Err(NullPointer)
    ensures forall items: seq<Json> :: Get(doc, FIELD_ENTRIES) == Some(JArray(items)) ==>
      (r.Ok? <==> AllObjects(items)) &&
      (r.Ok? ==> (|r.value| == |items| &&
        forall k :: 0 <= k < |items| ==> r.value[k] == creator(items[k].members)))
  {
    match UncachedEntityArray(doc, FIELD_ENTRIES, creator)
    case Err(e) => Err(e)
    case Ok(None) => Ok([])
    case Ok(Some(entries)) => Ok(entries)
  }
}
