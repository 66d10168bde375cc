/** `BoxJsonObject` and its inner class `CacheMap`: typed, memoizing reads over a
    JSON document, and writes that drop the written field's memo.

    The document (`mJsonObject`) is the source of truth. The cache
    (`mInternalCache`) holds, per field, the converted value of a date, a
    string array, a nested object or an array of nested objects. The pure
    functions `ReadDate`, `ReadStringArray`, `ReadEntity` and
    `ReadEntityArray` say what one memoizing read returns and what it leaves
    in the cache; the methods of `CacheMap` are proved to do exactly that.
    The date parser and formatter (`BoxDateFormat`) and the element creator
    (`BoxJsonObjectCreator`) are function parameters. */
module JsonObjects {
  import opened Failures
  import opened JsonValues

  /** A `java.util.Date`: milliseconds since the epoch. */
  datatype Date = Date(millis: int)

  /** What the cache can hold for a field. `E` is the type the creator builds. */
  datatype Cached<E> =
    | CachedDate(date: Date)
    | CachedStrings(strings: seq<string>)
    | CachedEntity(entity: E)
    | CachedEntities(entities: seq<E>)

  type Cache<E> = map<string, Cached<E>>

  /** The result of a memoizing read together with the cache it leaves behind. */
  datatype Step<T, E> = Step(result: Result<T>, cache: Cache<E>)

  /** `getAsJsonValue`: the field's value (a copy, which a value is by nature).
      The lookup is dereferenced unconditionally, so an absent field throws. */
  function JsonValueOf(doc: Object, field: string): (r: Result<Json>)
    ensures r.Ok? <==> field in Names(doc)
    ensures r.Ok? ==> Get(doc, field) == Some(r.value)
    ensures r.Err? ==> r.error == NullPointer
  {
    match Get(doc, field)
    case None => Err(NullPointer)
    case Some(v) => Ok(v)
  }

  /** The strings of a JSON array, converted one by one with `asString`. */
  function StringsOf(items: seq<Json>): (r: Result<seq<string>>)
    ensures r.Ok? <==> forall k :: 0 <= k < |items| ==> items[k].JString?
    ensures r.Ok? ==> (|r.value| == |items| &&
      forall k :: 0 <= k < |items| ==> items[k] == JString(r.value[k]))
    ensures r.Err? ==> r.error == UnsupportedOperation
  {
    if items == [] then Ok([])
    else match StringsOf(items[..|items| - 1])
      case Err(e) => Err(e)
      case Ok(init) =>
        match AsString(items[|items| - 1])
        case Err(e) => Err(e)
        case Ok(s) => Ok(init + [s])
  }

  /** The creator applied to each element of a JSON array, in order; each element
      must be an object (`asObject`). */
  function EntitiesOf<E>(creator: Object -> E, items: seq<Json>): (r: Result<seq<E>>)
    ensures r.Ok? <==> forall k :: 0 <= k < |items| ==> items[k].JObject?
    ensures r.Ok? ==> (|r.value| == |items| &&
      forall k :: 0 <= k < |items| ==> r.value[k] == creator(items[k].members))
    ensures r.Err? ==> r.error == UnsupportedOperation
  {
    if items == [] then Ok([])
    else match EntitiesOf(creator, items[..|items| - 1])
      case Err(e) => Err(e)
      case Ok(init) =>
        match AsObject(items[|items| - 1])
        case Err(e) => Err(e)
        case Ok(m) => Ok(init + [creator(m)])
  }

  // What each memoizing read computes from a present value when the cache does
  // not answer: JSON null reads as null, anything else is converted.

  function DateOfValue(v: Json, parse: string -> Option<Date>): Result<Option<Date>> {
    if v.JNull? then Ok(None)
    else match AsString(v)
      case Err(e) => Err(e)
      case Ok(s) => Ok(parse(s))
  }

  function StringArrayOfValue(v: Json): Result<Option<seq<string>>> {
    if v.JNull? then Ok(None)
    else match AsArray(v)
      case Err(e) => Err(e)
      case Ok(items) =>
        match StringsOf(items)
        case Err(e) => Err(e)
        case Ok(ss) => Ok(Some(ss))
  }

  function EntityOfValue<E>(v: Json, creator: Object -> E): Result<Option<E>> {
    if v.JNull? then Ok(None)
    else match AsObject(v)
      case Err(e) => Err(e)
      case Ok(m) => Ok(Some(creator(m)))
  }

  function EntityArrayOfValue<E>(v: Json, creator: Object -> E): Result<Option<seq<E>>> {
    if v.JNull? then Ok(None)
    else match AsArray(v)
      case Err(e) => Err(e)
      case Ok(items) =>
        match EntitiesOf(creator, items)
        case Err(e) => Err(e)
        case Ok(es) => Ok(Some(es))
  }

  // What each memoizing read would return if there were no cache at all.

  function UncachedDate(doc: Object, field: string, parse: string -> Option<Date>): Result<Option<Date>> {
    match JsonValueOf(doc, field)
    case Err(e) => Err(e)
    case Ok(v) => DateOfValue(v, parse)
  }

  function UncachedStringArray(doc: Object, field: string): Result<Option<seq<string>>> {
    match JsonValueOf(doc, field)
    case Err(e) => Err(e)
    case Ok(v) => StringArrayOfValue(v)
  }

  function UncachedEntity<E>(doc: Object, field: string, creator: Object -> E): Result<Option<E>> {
    match JsonValueOf(doc, field)
    case Err(e) => Err(e)
    case Ok(v) => EntityOfValue(v, creator)
  }

  function UncachedEntityArray<E>(doc: Object, field: string, creator: Object -> E): Result<Option<seq<E>>> {
    match JsonValueOf(doc, field)
    case Err(e) => Err(e)
    case Ok(v) => EntityArrayOfValue(v, creator)
  }

  /** `getAsDate`: the JSON-null test comes before the cache; a date the parser
      rejects reads as null and is not cached. */
  function ReadDate<E>(doc: Object, cache: Cache<E>, field: string, parse: string -> Option<Date>)
    : Step<Option<Date>, E>
  {
    match JsonValueOf(doc, field)
    case Err(e) => Step(Err(e), cache)
    case Ok(v) =>
      if v.JNull? then Step(Ok(None), cache)
      else if field in cache then
        if cache[field].CachedDate? then Step(Ok(Some(cache[field].date)), cache)
        else Step(Err(ClassCast), cache)
      else match DateOfValue(v, parse)
        case Ok(Some(d)) => Step(Ok(Some(d)), cache[field := CachedDate(d)])
        case r => Step(r, cache)
  }

  /** `getAsStringArray`: the cache is consulted before the document. */
  function ReadStringArray<E>(doc: Object, cache: Cache<E>, field: string)
    : Step<Option<seq<string>>, E>
  {
    if field in cache then
      if cache[field].CachedStrings? then Step(Ok(Some(cache[field].strings)), cache)
      else Step(Err(ClassCast), cache)
    else match UncachedStringArray(doc, field)
      case Ok(Some(ss)) => Step(Ok(Some(ss)), cache[field := CachedStrings(ss)])
      case r => Step(r, cache)
  }

  /** `getAsJsonObject(creator, field)`: the cache is consulted before the document. */
  function ReadEntity<E>(doc: Object, cache: Cache<E>, field: string, creator: Object -> E)
    : Step<Option<E>, E>
  {
    if field in cache then
      if cache[field].CachedEntity? then Step(Ok(Some(cache[field].entity)), cache)
      else Step(Err(ClassCast), cache)
    else match UncachedEntity(doc, field, creator)
      case Ok(Some(e)) => Step(Ok(Some(e)), cache[field := CachedEntity(e)])
      case r => Step(r, cache)
  }

  /** `getAsJsonObjectArray`: the cache is consulted before the document. */
  function ReadEntityArray<E>(doc: Object, cache: Cache<E>, field: string, creator: Object -> E)
    : Step<Option<seq<E>>, E>
  {
    if field in cache then
      if cache[field].CachedEntities? then Step(Ok(Some(cache[field].entities)), cache)
      else Step(Err(ClassCast), cache)
    else match UncachedEntityArray(doc, field, creator)
      case Ok(Some(es)) => Step(Ok(Some(es)), cache[field := CachedEntities(es)])
      case r => Step(r, cache)
  }

  /** A cached value is what converting the field's current value would give. */
  ghost predicate Agrees<E>(c: Cached<E>, v: Json, parse: string -> Option<Date>, creator: Object -> E) {
    match c
    case CachedDate(d) => DateOfValue(v, parse) == Ok(Some(d))
    case CachedStrings(ss) => StringArrayOfValue(v) == Ok(Some(ss))
    case CachedEntity(e) => EntityOfValue(v, creator) == Ok(Some(e))
    case CachedEntities(es) => EntityArrayOfValue(v, creator) == Ok(Some(es))
  }

  /** The cache invariant: every entry belongs to a present field and agrees with
      its current value, converted with the creator that field is read with
      (each `getAsJsonObject`/`getAsJsonObjectArray` call passes its own). */
  ghost predicate Coherent<E>(doc: Object, cache: Cache<E>, parse: string -> Option<Date>, creators: string -> (Object -> E)) {
    forall f :: f in cache ==> Get(doc, f).Some? && Agrees(cache[f], Get(doc, f).value, parse, creators(f))
  }

  /** After a write of `field`, every memoizing read of it converts the new value:
      no read can see what was cached before the write. */
  lemma ReadAfterSet<E>(doc: Object, cache: Cache<E>, field: string, value: Json,
                        parse: string -> Option<Date>, creator: Object -> E)
    ensures ReadDate(Add(doc, field, value), cache - {field}, field, parse).result == DateOfValue(value, parse)
    ensures ReadStringArray(Add(doc, field, value), cache - {field}, field).result == StringArrayOfValue(value)
    ensures ReadEntity(Add(doc, field, value), cache - {field}, field, creator).result == EntityOfValue(value, creator)
    ensures ReadEntityArray(Add(doc, field, value), cache - {field}, field, creator).result == EntityArrayOfValue(value, creator)
  {
    var written := Add(doc, field, value);
    GetAdd(doc, field, value, field);
    assert JsonValueOf(written, field) == Ok(value);
    assert field !in cache - {field};
  }

  /** A write keeps the cache invariant: the written field's entry is dropped and
      no other field's value changes. */
  lemma SetKeepsCoherent<E>(doc: Object, cache: Cache<E>, field: string, value: Json,
                            parse: string -> Option<Date>, creators: string -> (Object -> E))
    requires Coherent(doc, cache, parse, creators)
    ensures Coherent(Add(doc, field, value), cache - {field}, parse, creators)
  {
    forall f | f in cache - {field}
      ensures Get(Add(doc, field, value), f) == Get(doc, f)
    {
      GetAdd(doc, field, value, f);
    }
  }

  /** Once a date read has returned a date, reading again returns the same date
      from the cache and leaves the cache as it is. */
  lemma ReadDateStable<E>(doc: Object, cache: Cache<E>, field: string, parse: string -> Option<Date>,
                          parse': string -> Option<Date>)
    requires ReadDate(doc, cache, field, parse).result.Ok?
    requires ReadDate(doc, cache, field, parse).result.value.Some?
    ensures ReadDate(doc, ReadDate(doc, cache, field, parse).cache, field, parse') == ReadDate(doc, cache, field, parse)
  {
  }

  /** Once an array or object read has returned a value, every later read of that
      field, whatever creator it passes, returns that same value from the cache. */
  lemma MemoizedReadsStable<E>(doc: Object, cache: Cache<E>, field: string,
                               creator: Object -> E, creator': Object -> E)
    ensures var s := ReadStringArray(doc, cache, field);
      s.result.Ok? && s.result.value.Some? ==> ReadStringArray(doc, s.cache, field) == s
    ensures var s := ReadEntity(doc, cache, field, creator);
      s.result.Ok? && s.result.value.Some? ==> ReadEntity(doc, s.cache, field, creator') == s
    ensures var s := ReadEntityArray(doc, cache, field, creator);
      s.result.Ok? && s.result.value.Some? ==> ReadEntityArray(doc, s.cache, field, creator') == s
  {
  }

  // Under the cache invariant the memo is invisible: each read returns what
  // converting the document's current value gives, and keeps the invariant.
  // A field must be read as one kind only: a date cached under a field that is
  // then read as an array is a ClassCastException in the source.

  lemma ReadDateTransparent<E>(doc: Object, cache: Cache<E>, field: string,
                               parse: string -> Option<Date>, creators: string -> (Object -> E))
    requires Coherent(doc, cache, parse, creators)
    requires field !in cache || cache[field].CachedDate?
    ensures ReadDate(doc, cache, field, parse).result == UncachedDate(doc, field, parse)
    ensures Coherent(doc, ReadDate(doc, cache, field, parse).cache, parse, creators)
  {
    if field !in cache {
      var s := ReadDate(doc, cache, field, parse);
      forall f | f in s.cache
        ensures Get(doc, f).Some? && Agrees(s.cache[f], Get(doc, f).value, parse, creators(f))
      {
        if f != field {
          assert s.cache[f] == cache[f];
        }
      }
    }
  }

  lemma ReadStringArrayTransparent<E>(doc: Object, cache: Cache<E>, field: string,
                                      parse: string -> Option<Date>, creators: string -> (Object -> E))
    requires Coherent(doc, cache, parse, creators)
    requires field !in cache || cache[field].CachedStrings?
    ensures ReadStringArray(doc, cache, field).result == UncachedStringArray(doc, field)
    ensures Coherent(doc, ReadStringArray(doc, cache, field).cache, parse, creators)
  {
  }

  lemma ReadEntityTransparent<E>(doc: Object, cache: Cache<E>, field: string,
                                 parse: string -> Option<Date>, creators: string -> (Object -> E))
    requires Coherent(doc, cache, parse, creators)
    requires field !in cache || cache[field].CachedEntity?
    ensures ReadEntity(doc, cache, field, creators(field)).result == UncachedEntity(doc, field, creators(field))
    ensures Coherent(doc, ReadEntity(doc, cache, field, creators(field)).cache, parse, creators)
  {
  }

  lemma ReadEntityArrayTransparent<E>(doc: Object, cache: Cache<E>, field: string,
                                      parse: string -> Option<Date>, creators: string -> (Object -> E))
    requires Coherent(doc, cache, parse, creators)
    requires field !in cache || cache[field].CachedEntities?
    ensures ReadEntityArray(doc, cache, field, creators(field)).result == UncachedEntityArray(doc, field, creators(field))
    ensures Coherent(doc, ReadEntityArray(doc, cache, field, creators(field)).cache, parse, creators)
  {
  }

  /** `BoxJsonObject.CacheMap`: the document and the per-field cache. */
  class CacheMap<E> {
    var doc: Object       // mJsonObject
    var cache: Cache<E>   // mInternalCache

    constructor (json: Object)
      ensures doc == json && cache == map[]
    {
      doc := json;
      cache := map[];
    }

    /** `getPropertiesKeySet`: the field names in document order. */
    function PropertiesKeySet(): (r: seq<string>)
      reads this
      ensures |r| == |doc| && forall i :: 0 <= i < |doc| ==> r[i] == doc[i].name
    {
      Names(doc)
    }

    /** `getAsJsonObject()`: a copy of the whole document. */
    function ToJsonObject(): (r: Object)
      reads this
      ensures PropertiesKeySet() == Names(r)
      ensures forall f :: Get(r, f) == Get(doc, f)
    {
      doc
    }

    /** `getAsJsonValue`. */
    function GetAsJsonValue(field: string): (r: Result<Json>)
      reads this
      ensures r.Ok? <==> field in Names(doc)
      ensures r.Ok? ==> Get(doc, field) == Some(r.value)
      ensures r.Err? ==> r.error == NullPointer
    {
      JsonValueOf(doc, field)
    }

    /** `getAsString`: null for JSON null, the text for a string. */
    function GetAsString(field: string): (r: Result<Option<string>>)
      reads this
      ensures r == Ok(None) <==> Get(doc, field) == Some(JNull)
      ensures forall s :: r == Ok(Some(s)) <==> Get(doc, field) == Some(JString(s))
      ensures r == Err(NullPointer) <==> Get(doc, field) == None
      ensures r.Err? ==> r.error in {NullPointer, UnsupportedOperation}
    {
      match GetAsJsonValue(field)
      case Err(e) => Err(e)
      case Ok(v) =>
        if v.JNull? then Ok(None)
        else match AsString(v)
          case Err(e) => Err(e)
          case Ok(s) => Ok(Some(s))
    }

    /** `getAsBoolean`: there is no JSON-null test, so JSON null reaches `asBoolean`
        and throws; the source's own null test can never succeed. */
    function GetAsBoolean(field: string): (r: Result<bool>)
      reads this
      ensures forall b :: r == Ok(b) <==> Get(doc, field) == Some(JBool(b))
      ensures Get(doc, field) == Some(JNull) ==> r == Err(UnsupportedOperation)
      ensures r == Err(NullPointer) <==> Get(doc, field) == None
      ensures r.Err? ==> r.error in {NullPointer, UnsupportedOperation}
    {
      match GetAsJsonValue(field)
      case Err(e) => Err(e)
      case Ok(v) => AsBool(v)
    }

    /** `getAsInt`: null for JSON null, the number when it fits a Java int. */
    function GetAsInt(field: string): (r: Result<Option<int>>)
      reads this
      ensures r == Ok(None) <==> Get(doc, field) == Some(JNull)
      ensures forall n :: r == Ok(Some(n)) <==> Get(doc, field) == Some(JNumber(n)) && MIN_INT <= n <= MAX_INT
      ensures r == Err(NullPointer) <==> Get(doc, field) == None
      ensures r == Err(NumberFormat) <==> Get(doc, field).Some? && Get(doc, field).value.JNumber? &&
                                          !(MIN_INT <= Get(doc, field).value.n <= MAX_INT)
    {
      match GetAsJsonValue(field)
      case Err(e) => Err(e)
      case Ok(v) =>
        if v.JNull? then Ok(None)
        else match AsInt(v)
          case Err(e) => Err(e)
          case Ok(n) => Ok(Some(n))
    }

    /** `getAsLong`: null for JSON null, the number when it fits a Java long. */
    function GetAsLong(field: string): (r: Result<Option<int>>)
      reads this
      ensures r == Ok(None) <==> Get(doc, field) == Some(JNull)
      ensures forall n :: r == Ok(Some(n)) <==> Get(doc, field) == Some(JNumber(n)) && MIN_LONG <= n <= MAX_LONG
      ensures r == Err(NullPointer) <==> Get(doc, field) == None
      ensures r == Err(NumberFormat) <==> Get(doc, field).Some? && Get(doc, field).value.JNumber? &&
                                          !(MIN_LONG <= Get(doc, field).value.n <= MAX_LONG)
    {
      match GetAsJsonValue(field)
      case Err(e) => Err(e)
      case Ok(v) =>
        if v.JNull? then Ok(None)
        else match AsLong(v)
          case Err(e) => Err(e)
          case Ok(n) => Ok(Some(n))
    }

    /** `getAsJsonArray`: null for JSON null, a copy of the elements for an array. */
    function GetAsJsonArray(field: string): (r: Result<Option<seq<Json>>>)
      reads this
      ensures r == Ok(None) <==> Get(doc, field) == Some(JNull)
      ensures forall items :: r == Ok(Some(items)) <==> Get(doc, field) == Some(JArray(items))
      ensures r == Err(NullPointer) <==> Get(doc, field) == None
      ensures r.Err? ==> r.error in {NullPointer, UnsupportedOperation}
    {
      match GetAsJsonValue(field)
      case Err(e) => Err(e)
      case Ok(v) =>
        if v.JNull? then Ok(None)
        else match AsArray(v)
          case Err(e) => Err(e)
          case Ok(items) => Ok(Some(items))
    }

    /** Every `set` overload: write the value, then drop the field's cache entry.
        `set(field, String|boolean|Integer|Long|JsonArray|JsonObject)` pass the
        value converted to JSON. */
    method Set(field: string, value: Json)
      modifies this
      ensures doc == Add(old(doc), field, value)
      ensures cache == old(cache) - {field}
      ensures Get(doc, field) == Some(value) && field !in cache
      ensures forall f :: f != field ==> Get(doc, f) == Get(old(doc), f)
      ensures forall f :: f != field && f in old(cache) ==> f in cache && cache[f] == old(cache)[f]
      ensures forall parse: string -> Option<Date>, creators: string -> (Object -> E) ::
        Coherent(old(doc), old(cache), parse, creators) ==> Coherent(doc, cache, parse, creators)
      ensures UniqueNames(old(doc)) ==> UniqueNames(doc)
    {
      if UniqueNames(doc) {
        AddKeepsUnique(doc, field, value);
      }
      var written := Add(doc, field, value);
      forall f | f != field ensures Get(written, f) == Get(doc, f) {
        GetAdd(doc, field, value, f);
      }
      GetAdd(doc, field, value, field);
      forall parse: string -> Option<Date>, creators: string -> (Object -> E)
        | Coherent(doc, cache, parse, creators)
        ensures Coherent(written, cache - {field}, parse, creators)
      {
        SetKeepsCoherent(doc, cache, field, value, parse, creators);
      }
      doc := written;
      if field in cache {
        cache := cache - {field};
      }
    }

    /** `set(field, Date)`: stores the formatted date text. */
    method SetDate(field: string, date: Date, format: Date -> string)
      modifies this
      ensures doc == Add(old(doc), field, JString(format(date)))
      ensures cache == old(cache) - {field}
    {
      Set(field, JString(format(date)));
    }

    /** `set(field, BoxJsonObject)`: stores a copy of the other object's document,
        so later changes to `other` do not reach this document. */
    method SetEntity<F>(field: string, other: CacheMap<F>)
      modifies this
      ensures doc == Add(old(doc), field, JObject(old(other.doc)))
      ensures cache == old(cache) - {field}
    {
      Set(field, JObject(other.doc));
    }

    /** `addInJsonArray` (both overloads): the element is appended to the copy that
        `getAsJsonArray` returns, so the document never changes; the only effect
        is that the field's cache entry is dropped. */
    method AddInJsonArray(field: string, value: Object) returns (r: Outcome)
      modifies this
      ensures doc == old(doc)
      ensures r == Done <==> Get(doc, field).Some? && Get(doc, field).value.JArray?
      ensures r == Threw(NullPointer) <==> Get(doc, field) == None || Get(doc, field) == Some(JNull)
      ensures r.Threw? ==> r.error in {NullPointer, UnsupportedOperation}
      ensures cache == if r == Done then old(cache) - {field} else old(cache)
    {
      var arr := GetAsJsonArray(field);
      if arr.Err? {
        return Threw(arr.error);
      }
      if arr.value.None? {
        return Threw(NullPointer);
      }
      var appended := arr.value.value + [JObject(value)];
      if field in cache {
        cache := cache - {field};
      }
      return Done;
    }

    /** `getAsDate`. */
    method GetAsDate(field: string, parse: string -> Option<Date>) returns (r: Result<Option<Date>>)
      modifies this
      ensures doc == old(doc)
      ensures Step(r, cache) == ReadDate(doc, old(cache), field, parse)
    {
      var value := GetAsJsonValue(field);
      if value.Err? {
        return Err(value.error);
      }
      if value.value.JNull? {
        return Ok(None);
      }
      if field in cache {
        if cache[field].CachedDate? {
          return Ok(Some(cache[field].date));
        }
        return Err(ClassCast);
      }
      var text := AsString(value.value);
      if text.Err? {
        return Err(text.error);
      }
      var date := parse(text.value);
      if date.None? {
        return Ok(None);
      }
      cache := cache[field := CachedDate(date.value)];
      return Ok(date);
    }

    /** `getAsStringArray`. */
    method GetAsStringArray(field: string) returns (r: Result<Option<seq<string>>>)
      modifies this
      ensures doc == old(doc)
      ensures Step(r, cache) == ReadStringArray(doc, old(cache), field)
    {
      if field in cache {
        if cache[field].CachedStrings? {
          return Ok(Some(cache[field].strings));
        }
        return Err(ClassCast);
      }
      var value := GetAsJsonValue(field);
      if value.Err? {
        return Err(value.error);
      }
      if value.value.JNull? {
        return Ok(None);
      }
      var arr := AsArray(value.value);
      if arr.Err? {
        return Err(arr.error);
      }
      var items := arr.value;
      var strings: seq<string> := [];
      for i := 0 to |items|
        invariant |strings| == i
        invariant forall k :: 0 <= k < i ==> items[k] == JString(strings[k])
      {
        var s := AsString(items[i]);
        if s.Err? {
          return Err(s.error);
        }
        strings := strings + [s.value];
      }
      var converted := StringsOf(items);
      assert converted.Ok?;
      assert forall k :: 0 <= k < |items| ==> converted.value[k] == strings[k];
      assert converted.value == strings;
      cache := cache[field := CachedStrings(strings)];
      return Ok(Some(strings));
    }

    /** `getAsJsonObject(creator, field)`. */
    method GetAsJsonObject(creator: Object -> E, field: string) returns (r: Result<Option<E>>)
      modifies this
      ensures doc == old(doc)
      ensures Step(r, cache) == ReadEntity(doc, old(cache), field, creator)
    {
      if field in cache {
        if cache[field].CachedEntity? {
          return Ok(Some(cache[field].entity));
        }
        return Err(ClassCast);
      }
      var value := GetAsJsonValue(field);
      if value.Err? {
        return Err(value.error);
      }
      if value.value.JNull? {
        return Ok(None);
      }
      var obj := AsObject(value.value);
      if obj.Err? {
        return Err(obj.error);
      }
      var entity := creator(obj.value);
      cache := cache[field := CachedEntity(entity)];
      return Ok(Some(entity));
    }

    /** `getAsJsonObjectArray`. */
    method GetAsJsonObjectArray(creator: Object -> E, field: string) returns (r: Result<Option<seq<E>>>)
      modifies this
      ensures doc == old(doc)
      ensures Step(r, cache) == ReadEntityArray(doc, old(cache), field, creator)
    {
      if field in cache {
        if cache[field].CachedEntities? {
          return Ok(Some(cache[field].entities));
        }
        return Err(ClassCast);
      }
      var arr := GetAsJsonArray(field);
      if arr.Err? {
        return Err(arr.error);
      }
      if arr.value.None? {
        return Ok(None);
      }
      var items := arr.value.value;
      var entities: seq<E> := [];
      for i := 0 to |items|
        invariant |entities| == i
        invariant forall k :: 0 <= k < i ==> items[k].JObject? && entities[k] == creator(items[k].members)
      {
        var obj := AsObject(items[i]);
        if obj.Err? {
          return Err(obj.error);
        }
        entities := entities + [creator(obj.value)];
      }
      var created := EntitiesOf(creator, items);
      assert created.Ok?;
      assert created.value == entities;
      cache := cache[field := CachedEntities(entities)];
      return Ok(Some(entities));
    }
  }

  /** The part of `BoxJsonObject` that every model class shares: the current
      `CacheMap`, replaced whole by `createFromJson`. The typed `getPropertyAsX`
      and `set` delegates forward to the `CacheMap` unchanged. */
  class BoxJsonObject<E> {
    var cacheMap: CacheMap<E>

    /** `BoxJsonObject(JsonObject)`. */
    constructor (json: Object)
      ensures fresh(cacheMap) && cacheMap.doc == json && cacheMap.cache == map[]
    {
      cacheMap := new CacheMap(json);
    }

    /** `createFromJson(JsonObject)`: a new document and an empty cache. */
    method CreateFromJson(json: Object)
      modifies this
      ensures fresh(cacheMap) && cacheMap.doc == json && cacheMap.cache == map[]
    {
      cacheMap := new CacheMap(json);
    }

    /** `getPropertiesKeySet`. */
    function PropertiesKeySet(): (r: seq<string>)
      reads this, cacheMap
      ensures r == Names(cacheMap.doc)
    {
      cacheMap.PropertiesKeySet()
    }

    /** `getPropertyValue`: a copy of the field's value; an absent field throws. */
    function PropertyValue(name: string): (r: Result<Json>)
      reads this, cacheMap
      ensures r.Ok? <==> name in Names(cacheMap.doc)
      ensures r.Ok? ==> Get(cacheMap.doc, name) == Some(r.value)
      ensures r.Err? ==> r.error == NullPointer
    {
      cacheMap.GetAsJsonValue(name)
    }

    /** `getPropertyAsLong`: null for JSON null, the number otherwise (read through
        `getAsDouble`, which every JSON number passes). */
    function PropertyAsLong(field: string): (r: Result<Option<int>>)
      reads this, cacheMap
      ensures r == Ok(None) <==> Get(cacheMap.doc, field) == Some(JNull)
      ensures forall n :: r == Ok(Some(n)) <==> Get(cacheMap.doc, field) == Some(JNumber(n))
      ensures r == Err(NullPointer) <==> Get(cacheMap.doc, field) == None
      ensures r.Err? ==> r.error in {NullPointer, UnsupportedOperation}
    {
      match cacheMap.GetAsJsonValue(field)
      case Err(e) => Err(e)
      case Ok(v) =>
        if v.JNull? then Ok(None)
        else if v.JNumber? then Ok(Some(v.n))
        else Err(UnsupportedOperation)
    }
  }
}
