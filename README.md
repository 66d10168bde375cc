# Box Android content SDK: JSON-backed models in Dafny

This project models the JSON-backed model objects of the Box Android content
SDK and proves properties of them:

- `BoxJsonObject` and its inner `CacheMap`. The map holds a JSON document (`mJsonObject`) and a per-field cache of converted values (`mInternalCache`). It offers typed reads (`getAsString`, `getAsDate`, `getAsJsonObjectArray`, …), and writes (`set`) that drop the written field's cache entry.
- `BoxIterator`. It is one page of a server-side collection (`offset`, `limit`, `total_count`, `entries`). Its elements are built by a creator and memoized. It has a snapshot format for Java serialization (`writeObject`/`readObject`).
- `BoxFolder`. Its `parseJSONMember` fills the folder's property map `mProperties`. Its `SyncState` enum has a case-insensitive text codec.

Files:

- `failures.dfy`, module `Failures`: Java exceptions by class, plus `Option`, `Result` and `Outcome`. A thrown exception is a value.
- `json.dfy`, module `JsonValues`:
  - JSON values and an ordered JSON object (`seq<Member>`).
  - A lookup finds the first member with the name. An add replaces that member in place, or appends a new one.
  - It also has the minimal-json `asX` accessors, each with its exception.
- `cache_map.dfy`, module `JsonObjects`:
  - Pure specification functions for each memoizing read (`ReadDate`, `ReadStringArray`, `ReadEntity`, `ReadEntityArray`). Each returns the result and the cache it leaves.
  - The cache invariant `Coherent`.
  - The classes `CacheMap<E>` and `BoxJsonObject<E>`. Their methods are proved to do exactly what those functions say.
- `box_iterator.dfy`, module `BoxIterators`:
  - The snapshot as a sequence of records, with `Encode`, the decoder as written (`DecodeAsWritten`) and the corrected decoder (`Decode`).
  - The class `BoxIterator<E>`. It holds the `BoxJsonObject` it extends (`base`) and its element creator.
- `box_folder.dfy`, module `BoxFolders`: the `SyncState` codec, the converted properties, and the class `BoxFolder` with its property map.

How the model represents the source:

- **External collaborators are parameters.** These are the date parser and formatter (`BoxDateFormat`), the element creator (`BoxJsonObjectCreator`) and `BoxCollaboration.Role.fromString`.
- **JSON text is the value it encodes.** Copying through `readFrom(toString())` is a value copy.
- **The cache invariant.** Every cached entry converts from the field's current value, with the creator that field is read with (`Coherent`, or `BoxIterator.EntriesCoherent` for `entries`). Under it, a memoizing read of a field that is not cached, or is cached as the kind being read, returns what a read with no cache would return. A field cached as another kind is a ClassCastException (see "## Left out").
- **The BoxJsonObject delegates.** Every `getPropertyAsX` except `getPropertyAsLong`, and every `set`, forwards unchanged to `CacheMap`. Callers in the model use `base.cacheMap` directly. `getPropertyAsLong` reads through `getAsDouble` and `longValue()` instead, and is the member `BoxJsonObject.PropertyAsLong`.

## Model

| member | source | states |
|---|---|---|
| JsonValues.GetAdd | box-content-sdk/src/main/java/com/box/androidsdk/content/models/BoxJsonObject.java:279-284 | after a write, a read of the field gives the written value and every other field reads as before |
| JsonValues.NamesAdd | box-content-sdk/src/main/java/com/box/androidsdk/content/models/BoxJsonObject.java:279-284 | a write keeps the key order: an existing key stays in place, a new key goes last |
| JsonValues.AddKeepsUnique | box-content-sdk/src/main/java/com/box/androidsdk/content/models/BoxJsonObject.java:279-284 | a write into a document with unique names leaves the names unique |
| JsonValues.GetRemove | box-content-sdk/src/main/java/com/box/androidsdk/content/models/BoxIterator.java:104-111 | dropping a name hides it and leaves every other name readable as before |
| JsonObjects.JsonValueOf | box-content-sdk/src/main/java/com/box/androidsdk/content/models/BoxJsonObject.java:483-486 | the field's value if present; an absent field is a NullPointerException because the lookup is dereferenced unconditionally |
| JsonObjects.StringsOf | box-content-sdk/src/main/java/com/box/androidsdk/content/models/BoxJsonObject.java:418-432 | succeeds iff every element is a string; then the list has the array's length and element k is element k's text |
| JsonObjects.EntitiesOf | box-content-sdk/src/main/java/com/box/androidsdk/content/models/BoxJsonObject.java:442-448 | succeeds iff every element is an object; then the list has the array's length and element k is the creator applied to element k, in order |
| JsonObjects.ReadAfterSet | box-content-sdk/src/main/java/com/box/androidsdk/content/models/BoxJsonObject.java:279-284 | after a write, every typed read of the field converts the new value; nothing cached before the write is visible |
| JsonObjects.SetKeepsCoherent | box-content-sdk/src/main/java/com/box/androidsdk/content/models/BoxJsonObject.java:279-284 | a write (document add plus cache removal) keeps the cache invariant |
| JsonObjects.ReadDateStable | box-content-sdk/src/main/java/com/box/androidsdk/content/models/BoxJsonObject.java:301-318 | once a date read has returned a date, a second read returns that date and leaves the cache as it is, whatever parser it is given |
| JsonObjects.MemoizedReadsStable | box-content-sdk/src/main/java/com/box/androidsdk/content/models/BoxJsonObject.java:418-467 | two string-array, object or object-array reads with no write between return the identical cached value, whatever creator the second read passes |
| JsonObjects.ReadDateTransparent | box-content-sdk/src/main/java/com/box/androidsdk/content/models/BoxJsonObject.java:301-318 | under the cache invariant, for a field not cached or cached as a date, a date read returns what parsing the current value gives, and keeps the invariant |
| JsonObjects.ReadStringArrayTransparent | box-content-sdk/src/main/java/com/box/androidsdk/content/models/BoxJsonObject.java:418-432 | under the cache invariant, for a field not cached or cached as a string list, a string-array read returns the conversion of the current value, and keeps the invariant |
| JsonObjects.ReadEntityTransparent | box-content-sdk/src/main/java/com/box/androidsdk/content/models/BoxJsonObject.java:455-467 | under the cache invariant, for a field not cached or cached as an object, an object read with the field's creator returns that creator applied to the current value, and keeps the invariant |
| JsonObjects.ReadEntityArrayTransparent | box-content-sdk/src/main/java/com/box/androidsdk/content/models/BoxJsonObject.java:434-452 | under the cache invariant, for a field not cached or cached as an object list, an object-array read with the field's creator returns the conversion of the current value, and keeps the invariant |
| JsonObjects.CacheMap.constructor | box-content-sdk/src/main/java/com/box/androidsdk/content/models/BoxJsonObject.java:248-251 | the given document, with an empty cache |
| JsonObjects.CacheMap.PropertiesKeySet | box-content-sdk/src/main/java/com/box/androidsdk/content/models/BoxJsonObject.java:267-269 | the document's names, in document order |
| JsonObjects.CacheMap.ToJsonObject | box-content-sdk/src/main/java/com/box/androidsdk/content/models/BoxJsonObject.java:488-491 | a copy with the same names in the same order and the same value under every name |
| JsonObjects.CacheMap.GetAsJsonValue | box-content-sdk/src/main/java/com/box/androidsdk/content/models/BoxJsonObject.java:483-486 | the field's value iff the field is present, else NullPointerException |
| JsonObjects.CacheMap.GetAsString | box-content-sdk/src/main/java/com/box/androidsdk/content/models/BoxJsonObject.java:271-277 | null iff the value is JSON null; the text iff it is that string; NullPointerException iff the field is absent |
| JsonObjects.CacheMap.GetAsBoolean | box-content-sdk/src/main/java/com/box/androidsdk/content/models/BoxJsonObject.java:286-292 | the boolean iff the value is that boolean; JSON null throws UnsupportedOperationException, since there is no null test; absent throws NullPointerException; no other exception is thrown |
| JsonObjects.CacheMap.GetAsInt | box-content-sdk/src/main/java/com/box/androidsdk/content/models/BoxJsonObject.java:357-363 | null iff JSON null; the number iff it fits a Java int; NumberFormatException iff it is a number outside that range |
| JsonObjects.CacheMap.GetAsLong | box-content-sdk/src/main/java/com/box/androidsdk/content/models/BoxJsonObject.java:372-378 | null iff JSON null; the number iff it fits a Java long; NumberFormatException iff it is a number outside that range; NullPointerException iff absent |
| JsonObjects.CacheMap.GetAsJsonArray | box-content-sdk/src/main/java/com/box/androidsdk/content/models/BoxJsonObject.java:387-393 | null iff JSON null; a copy of the elements iff the value is that array; NullPointerException iff absent |
| JsonObjects.CacheMap.Set | box-content-sdk/src/main/java/com/box/androidsdk/content/models/BoxJsonObject.java:279-284 | the document gets the value and the field's cache entry is gone; every other field and every other cache entry are unchanged; the cache invariant is kept; a document with unique names keeps them. The boolean, Integer, Long, JsonArray and JsonObject overloads (294-299, 365-370, 380-385, 395-400, 469-474) are this method applied to the value as JSON |
| JsonObjects.CacheMap.SetDate | box-content-sdk/src/main/java/com/box/androidsdk/content/models/BoxJsonObject.java:320-325 | stores the formatted date text and drops the field's cache entry |
| JsonObjects.CacheMap.SetEntity | box-content-sdk/src/main/java/com/box/androidsdk/content/models/BoxJsonObject.java:476-481 | stores a copy of the other object's document (its state at the call) and drops the field's cache entry |
| JsonObjects.CacheMap.AddInJsonArray | box-content-sdk/src/main/java/com/box/androidsdk/content/models/BoxJsonObject.java:402-416 | the document never changes; completes iff the field holds an array, and then only the field's cache entry is dropped; NullPointerException iff the field is absent or JSON null |
| JsonObjects.CacheMap.GetAsDate | box-content-sdk/src/main/java/com/box/androidsdk/content/models/BoxJsonObject.java:301-318 | exactly `ReadDate`: JSON null is null before the cache is consulted; a cached date is returned; a date the parser rejects is null and is not cached |
| JsonObjects.CacheMap.GetAsStringArray | box-content-sdk/src/main/java/com/box/androidsdk/content/models/BoxJsonObject.java:418-432 | exactly `ReadStringArray`: the cache first, else the converted array, which is then cached |
| JsonObjects.CacheMap.GetAsJsonObject | box-content-sdk/src/main/java/com/box/androidsdk/content/models/BoxJsonObject.java:455-467 | exactly `ReadEntity`: the cache first, else the creator applied to the object, which is then cached |
| JsonObjects.CacheMap.GetAsJsonObjectArray | box-content-sdk/src/main/java/com/box/androidsdk/content/models/BoxJsonObject.java:434-452 | exactly `ReadEntityArray`: the cache first, else the creator applied to each element in order, which is then cached |
| JsonObjects.BoxJsonObject.constructor | box-content-sdk/src/main/java/com/box/androidsdk/content/models/BoxJsonObject.java:38-40 | a fresh cache map over the given document, with an empty cache |
| JsonObjects.BoxJsonObject.CreateFromJson | box-content-sdk/src/main/java/com/box/androidsdk/content/models/BoxJsonObject.java:56-58 | replaces the cache map with a fresh one over the new document, so no memo survives |
| JsonObjects.BoxJsonObject.PropertiesKeySet | box-content-sdk/src/main/java/com/box/androidsdk/content/models/BoxJsonObject.java:105-107 | the document's names in order |
| JsonObjects.BoxJsonObject.PropertyValue | box-content-sdk/src/main/java/com/box/androidsdk/content/models/BoxJsonObject.java:94-98 | a copy of the field's value iff present, else NullPointerException |
| JsonObjects.BoxJsonObject.PropertyAsLong | box-content-sdk/src/main/java/com/box/androidsdk/content/models/BoxJsonObject.java:157-160 | null iff JSON null; the number iff the value is that number; NullPointerException iff absent |
| BoxIterators.Elements | box-content-sdk/src/main/java/com/box/androidsdk/content/models/BoxIterator.java:128-132 | when reading `cap` element texts succeeds, there are at least `cap` records and record k holds element k as an object |
| BoxIterators.HeaderIsRemove | box-content-sdk/src/main/java/com/box/androidsdk/content/models/BoxIterator.java:104-111 | for unique names, the header is every member except `entries`, in document order, with its value |
| BoxIterators.EncodeDecode | box-content-sdk/src/main/java/com/box/androidsdk/content/models/BoxIterator.java:102-135 | with the corrected decoder, a written snapshot reads back as the document without `entries`, followed by `entries` when it held at least one element |
| BoxIterators.RestoredKeepsFields | box-content-sdk/src/main/java/com/box/androidsdk/content/models/BoxIterator.java:104-111 | a round trip keeps every field other than `entries` |
| BoxIterators.RestoredEntries | box-content-sdk/src/main/java/com/box/androidsdk/content/models/BoxIterator.java:112-114 | a round trip keeps a non-empty `entries` array; an empty or JSON-null `entries` is written as -1 and comes back absent |
| BoxIterators.DecodeAsWrittenLosesEntries | box-content-sdk/src/main/java/com/box/androidsdk/content/models/BoxIterator.java:126-133 | as written, any snapshot with at least one entry reads back with `entries` equal to the empty array |
| BoxIterators.OneEntryPageLost | box-content-sdk/src/main/java/com/box/androidsdk/content/models/BoxIterator.java:123-135 | the page `{"entries":[{}]}` is written as header, 1, `{}`, and read back as `{"entries":[]}` |
| BoxIterators.SamePageSameEntries | box-content-sdk/src/main/java/com/box/androidsdk/content/models/BoxIterator.java:14-17 | two pages with equal `entries` have the same size, the same iteration and the same element at every index, whatever their `offset` and `limit` |
| BoxIterators.SizeOf | box-content-sdk/src/main/java/com/box/androidsdk/content/models/BoxIterator.java:72-78 | 0 for JSON-null `entries`; the array length when every entry is an object; NullPointerException when absent |
| BoxIterators.ElementAt | box-content-sdk/src/main/java/com/box/androidsdk/content/models/BoxIterator.java:84-92 | element `index` built by the creator iff 0 <= index < length, IndexOutOfBoundsException otherwise; JSON-null `entries` throws NullPointerException |
| BoxIterators.EntryList | box-content-sdk/src/main/java/com/box/androidsdk/content/models/BoxIterator.java:98-100 | nothing for JSON-null `entries`; otherwise each entry built by the creator, in order, iff every entry is an object |
| BoxIterators.BoxIterator.constructor | box-content-sdk/src/main/java/com/box/androidsdk/content/models/BoxIterator.java:36-39 | a fresh object over the given document, with an empty cache |
| BoxIterators.BoxIterator.Offset | box-content-sdk/src/main/java/com/box/androidsdk/content/models/BoxIterator.java:50-52 | reads `offset`: null iff JSON null, the number iff a number, NullPointerException iff absent |
| BoxIterators.BoxIterator.Limit | box-content-sdk/src/main/java/com/box/androidsdk/content/models/BoxIterator.java:59-61 | reads `limit`, with the same cases as `Offset` |
| BoxIterators.BoxIterator.FullSize | box-content-sdk/src/main/java/com/box/androidsdk/content/models/BoxIterator.java:68-70 | reads `total_count`, with the same cases as `Offset` |
| BoxIterators.BoxIterator.GetEntries | box-content-sdk/src/main/java/com/box/androidsdk/content/models/BoxIterator.java:80-82 | exactly the memoizing object-array read of `entries`; with a coherent cache, the conversion of the current `entries`, and the cache stays coherent |
| BoxIterators.BoxIterator.Size | box-content-sdk/src/main/java/com/box/androidsdk/content/models/BoxIterator.java:72-78 | never negative; with a coherent cache it is `SizeOf` the document, and the cache stays coherent |
| BoxIterators.BoxIterator.Get | box-content-sdk/src/main/java/com/box/androidsdk/content/models/BoxIterator.java:84-92 | with a coherent cache it is `ElementAt` the index; `getAs` ignores its creator argument, so `get` and `getAs` agree |
| BoxIterators.BoxIterator.Iterator | box-content-sdk/src/main/java/com/box/androidsdk/content/models/BoxIterator.java:98-100 | with a coherent cache it is `EntryList` of the document |
| BoxIterators.BoxIterator.WriteObject | box-content-sdk/src/main/java/com/box/androidsdk/content/models/BoxIterator.java:102-121 | with a coherent cache the records written are `Encode` of the document; the document is unchanged; the cache is what the memoizing read of `entries` leaves when `entries` is a non-empty array, and untouched otherwise |
| BoxIterators.BoxIterator.WriteHeader | box-content-sdk/src/main/java/com/box/androidsdk/content/models/BoxIterator.java:104-111 | the header loop builds `Header` over all names in key order, skipping `entries` |
| BoxIterators.BoxIterator.ReadObject | box-content-sdk/src/main/java/com/box/androidsdk/content/models/BoxIterator.java:123-135 | completes iff `DecodeAsWritten` succeeds, and then the new document is what it gives over a fresh, empty cache; otherwise throws the same exception |
| BoxFolders.ToString | box-content-sdk/src/main/java/com/box/androidsdk/content/models/BoxFolder.java:236-268 | the wire text of each constant ("synced", "not_synced", "partially_synced"): non-empty and already lower case, so the case fold of `fromString` leaves it unchanged; `TextsDistinct` and `FromStringToString` make it the inverse of `fromString` |
| BoxFolders.FirstMatch | box-content-sdk/src/main/java/com/box/androidsdk/content/models/BoxFolder.java:256-260 | a constant whose text matches ignoring case, or none iff no candidate matches |
| BoxFolders.FromString | box-content-sdk/src/main/java/com/box/androidsdk/content/models/BoxFolder.java:254-263 | IllegalArgumentException iff the text is null, empty or matches no constant ignoring case; otherwise a constant it matches |
| BoxFolders.TextsDistinct | box-content-sdk/src/main/java/com/box/androidsdk/content/models/BoxFolder.java:236-246 | no two constants' texts match each other ignoring case |
| BoxFolders.FromStringToString | box-content-sdk/src/main/java/com/box/androidsdk/content/models/BoxFolder.java:254-268 | `fromString(e.toString()) == e` for every constant |
| BoxFolders.FromStringIgnoresCase | box-content-sdk/src/main/java/com/box/androidsdk/content/models/BoxFolder.java:257 | texts equal ignoring case give the same constant, or both throw |
| BoxFolders.FromStringUpperCase | box-content-sdk/src/main/java/com/box/androidsdk/content/models/BoxFolder.java:257 | "SYNCED" reads as SYNCED and "Not_Synced" as NOT_SYNCED |
| BoxFolders.RolesOf | box-content-sdk/src/main/java/com/box/androidsdk/content/models/BoxFolder.java:217-222 | succeeds iff every element is a text the role conversion accepts; then the roles have the array's length and order |
| BoxFolders.PropertyOfKind | box-content-sdk/src/main/java/com/box/androidsdk/content/models/BoxFolder.java:189-227 | each recognised name is stored as its own kind of property; `item_collection` converts iff the value is an object; a sync state matches its text; the roles list has the array's length |
| BoxFolders.BoxFolder.constructor | box-content-sdk/src/main/java/com/box/androidsdk/content/models/BoxFolder.java:81-83 | the properties are the given map |
| BoxFolders.BoxFolder.CreateFromId | box-content-sdk/src/main/java/com/box/androidsdk/content/models/BoxFolder.java:92-97 | a fresh folder whose properties are exactly `id` mapped to the id and `type` mapped to "folder" |
| BoxFolders.BoxFolder.GetItemCollection | box-content-sdk/src/main/java/com/box/androidsdk/content/models/BoxFolder.java:140-144 | null iff `item_collection` is not a key; the stored collection iff it is one; a failed cast otherwise |
| BoxFolders.BoxFolder.ParseJsonMember | box-content-sdk/src/main/java/com/box/androidsdk/content/models/BoxFolder.java:189-227 | delegated iff the name is not one of the seven, with the properties untouched; otherwise exactly that key is set to the converted value, or the conversion's exception is thrown and nothing is stored |

## Left out

- JSON text parsing and printing (`toJson`, `createFromJson(String)`, `JsonValue.readFrom`): the document is a JSON value, and a copy through text is a value copy.
- Floating-point reads (`getAsDouble`, `getAsFloat`, their setters and the BoxJsonObject delegates for them): numbers are integers here.
- JsonObjects.BoxJsonObject.PropertyAsLong: reads the integer exactly. It does not model the Double-to-long truncation and precision loss of a read through `getAsDouble`.
- JsonObjects.CacheMap.GetAsStringArray, GetAsJsonObject, GetAsJsonObjectArray and GetAsDate: a cache entry of another kind is a ClassCastException. In Java, the unchecked generic casts can let a wrong-kind list through until an element is used.
- JsonObjects.CacheMap.Set: null arguments are not modelled. Passing a null `Boolean`, `Integer` or `Long` fails on unboxing or in the library.
- JsonObjects.CacheMap.Set: a `JsonObject` or `JsonArray` argument is stored by reference in Java, so later changes by the caller reach the document. The model stores a value.
- JsonValues.Add: a write is taken as replace-in-place. Whether minimal-json's `add` appends a duplicate key is library behaviour. The round-trip lemmas assume unique names.
- JsonValues.NamesAdd, JsonValues.AddKeepsUnique: "an existing key stays in place" and "names stay unique" hold under the replace-in-place reading of `add` above, not for a library that appends a duplicate.
- JsonValues.Get: when a name repeats, a lookup returns the first member with that name. Which member minimal-json's `get` returns then is library behaviour and is not modelled. On documents with unique names there is nothing to choose, and `CacheMap.Set` keeps names unique (`UniqueNames`).
- JsonObjects.CacheMap.GetAsDate, JsonObjects.CacheMap.GetAsStringArray, JsonObjects.CacheMap.GetAsJsonObject, JsonObjects.CacheMap.GetAsJsonObjectArray, BoxIterators.BoxIterator.GetEntries, BoxIterators.BoxIterator.Iterator: Java returns the memoized object itself (the `Date`, the `ArrayList`, the entity; BoxJsonObject.java:308, 313, 420-431, 436-450, 457-466; BoxIterator.java:80-82, 98-100, whose iterator supports `remove`). A caller's `setTime`, `add`, `remove` or entity `set` on a result changes what later reads return while the document stays as it was, so the cache invariant can stop holding without any write. The model returns values, so the transparency lemmas hold only for callers that never change a result.
- JsonObjects.CacheMap.constructor, JsonObjects.BoxJsonObject.constructor, JsonObjects.BoxJsonObject.CreateFromJson: Java keeps the caller's `JsonObject` by reference (BoxJsonObject.java:38-40, 56-58, 249), so later changes by the caller reach the document. The model stores a value.
- The `getPropertyAsX`/`set`/`addInJsonArray` delegates of `BoxJsonObject` (BoxJsonObject.java:109-200) are not separate members, except `getPropertyAsLong` (157-160). The others forward unchanged to `CacheMap`, and the model calls `cacheMap` directly. `getPropertyAsLong` goes through `getAsDouble` and `longValue()`; it is `BoxJsonObject.PropertyAsLong` above.
- `getBoxJsonObjectCreator` uses reflection, so the creator is a function parameter. The date parser and formatter (`BoxDateFormat`) and logging are parameters or are left out.
- `BoxIterator.getSortOrders`: `BoxOrder` is not part of this model.
- BoxIterators.BoxIterator.WriteObject: `size()` is re-evaluated on every test of the loop. After the first call it is served from the cache, so the model evaluates it once.
- Java serialization plumbing (`ObjectOutputStream`, `writeUTF`/`writeInt`, the `BoxJsonObject` hooks): the snapshot is a sequence of records. A record of the wrong kind is StreamCorruptedException.
- `BoxCollection` and `BoxIteratorItems`: the first is two delegating getters, the second an empty subclass whose creator is not part of this model.
- BoxFolder collaborators (`BoxItem`/`BoxEntity` constructors, `BoxUploadEmail`, `BoxCollaboration.Role.fromString`): nested objects are kept as the JSON objects they are built from, and role conversion is a parameter. `BoxItem.FIELD_ID` and `FIELD_TYPE` are taken as "id" and "type".
- BoxFolders.BoxFolder.CreateFromId: the insertion order of the `LinkedHashMap` is not kept, because the property map is a Dafny `map`.
- BoxFolders.EqualsIgnoreCase: folds ASCII letters only. Java's `equalsIgnoreCase` also matches some non-ASCII characters, such as 'ſ' for 's', which the model does not accept.
- `TextUtils.isEmpty` is read as "null or length 0".

## Findings

| source | as written | input that shows it | evidently intended | confidence | as-written member | corrected member |
|---|---|---|---|---|---|---|
| box-content-sdk/src/main/java/com/box/androidsdk/content/models/BoxIterator.java:126-133 | `readObject` sets `entries` to `[]`, then calls `addInJsonArray` for each element. That method appends to the copy `getAsJsonArray` returns (BoxJsonObject.java:402-407), so no element reaches the document. | the page `{"entries":[{}]}`: written as header `{}`, count 1, `{}`; read back as `{"entries":[]}` | the elements read become the `entries` array, so a written page reads back with its entries | not executed | BoxIterators.DecodeAsWrittenLosesEntries | BoxIterators.EncodeDecode |
