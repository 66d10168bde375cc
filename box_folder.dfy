/** `BoxFolder`: the folder-specific members of a Box folder, parsed from JSON
    into the folder's property map, and the `SyncState` enum codec.

    The superclasses (`BoxItem`, `BoxEntity`) are not part of this model: a
    member this class does not recognise is handed back as `Delegated`. The
    nested objects it builds (`BoxUploadEmail`, `BoxIteratorItems`) are kept as
    the JSON objects they are created from, and `BoxCollaboration.Role.fromString`
    is the parameter `roleOf`. */
module BoxFolders {
  import opened Failures
  import opened JsonValues

  const TYPE: string := "folder"

  /** `BoxItem.FIELD_ID` and `BoxItem.FIELD_TYPE`. */
  const FIELD_ID: string := "id"
  const FIELD_TYPE: string := "type"

  const FIELD_FOLDER_UPLOAD_EMAIL: string := "folder_upload_email"
  const FIELD_HAS_COLLABORATIONS: string := "has_collaborations"
  const FIELD_SYNC_STATE: string := "sync_state"
  const FIELD_CAN_NON_OWNERS_INVITE: string := "can_non_owners_invite"
  const FIELD_ITEM_COLLECTION: string := "item_collection"
  const FIELD_IS_EXTERNALLY_OWNED: string := "is_externally_owned"
  const FIELD_ALLOWED_INVITEE_ROLES: string := "allowed_invitee_roles"

  /** The member names `parseJSONMember` handles itself. */
  const RECOGNISED: set<string> := {
    FIELD_FOLDER_UPLOAD_EMAIL, FIELD_HAS_COLLABORATIONS, FIELD_SYNC_STATE,
    FIELD_CAN_NON_OWNERS_INVITE, FIELD_ITEM_COLLECTION, FIELD_IS_EXTERNALLY_OWNED,
    FIELD_ALLOWED_INVITEE_ROLES }

  // ---------------------------------------------------------------- SyncState

  datatype SyncState = Synced | NotSynced | PartiallySynced

  /** `SyncState.values()`, in declaration order. */
  const VALUES: seq<SyncState> := [Synced, NotSynced, PartiallySynced]

  /** `SyncState.toString()`: the wire text of each constant. The texts are
      non-empty and already in lower case, so folding case leaves them as they are. */
  function ToString(s: SyncState): (r: string)
    ensures r != []
    ensures forall i :: 0 <= i < |r| ==> Fold(r[i]) == r[i]
  {
    match s
    case Synced => "synced"
    case NotSynced => "not_synced"
    case PartiallySynced => "partially_synced"
  }

  /** A character with ASCII upper case folded to lower case. */
  function Fold(c: char): char {
    if 'A' <= c <= 'Z' then (c as int + 32) as char else c
  }

  /** `String.equalsIgnoreCase`, for ASCII letters. */
  predicate EqualsIgnoreCase(a: string, b: string) {
    |a| == |b| && forall i :: 0 <= i < |a| ==> Fold(a[i]) == Fold(b[i])
  }

  /** The first constant among `candidates` whose text matches `text`. */
  function FirstMatch(text: string, candidates: seq<SyncState>): (r: Option<SyncState>)
    ensures r.Some? ==> r.value in candidates && EqualsIgnoreCase(text, ToString(r.value))
    ensures r.None? <==> forall s :: s in candidates ==> !EqualsIgnoreCase(text, ToString(s))
  {
    if candidates == [] then None
    else if EqualsIgnoreCase(text, ToString(candidates[0])) then Some(candidates[0])
    else FirstMatch(text, candidates[1..])
  }

  /** `SyncState.fromString`: null or empty text, or text that no constant's
      `toString` matches ignoring case, throws IllegalArgumentException. */
  function FromString(text: Option<string>): (r: Result<SyncState>)
    ensures r.Err? <==> (text.None? || text.value == [] ||
      forall s: SyncState :: !EqualsIgnoreCase(text.value, ToString(s)))
    ensures r.Err? ==> r.error == IllegalArgument
    ensures r.Ok? ==> EqualsIgnoreCase(text.value, ToString(r.value))
  {
    if text.None? || text.value == [] then Err(IllegalArgument)
    else match FirstMatch(text.value, VALUES)
      case None => Err(IllegalArgument)
      case Some(s) => Ok(s)
  }

  /** No two constants' texts match each other, ignoring case. */
  lemma TextsDistinct(s: SyncState, t: SyncState)
    requires EqualsIgnoreCase(ToString(s), ToString(t))
    ensures s == t
  {
  }

  /** Matching ignoring case is an equivalence on texts. */
  lemma EqualsIgnoreCaseTransitive(a: string, b: string, c: string)
    requires EqualsIgnoreCase(a, b)
    ensures EqualsIgnoreCase(b, c) <==> EqualsIgnoreCase(a, c)
  {
  }

  /** Every constant reads back from its own text. */
  lemma FromStringToString(s: SyncState)
    ensures FromString(Some(ToString(s))) == Ok(s)
  {
  }

  /** Texts that match ignoring case read as the same constant, or both throw. */
  lemma FromStringIgnoresCase(a: string, b: string)
    requires EqualsIgnoreCase(a, b)
    ensures FromString(Some(a)) == FromString(Some(b))
  {
    forall s: SyncState ensures EqualsIgnoreCase(a, ToString(s)) <==> EqualsIgnoreCase(b, ToString(s)) {
      EqualsIgnoreCaseTransitive(a, b, ToString(s));
    }
    var ra, rb := FromString(Some(a)), FromString(Some(b));
    if ra.Ok? && rb.Ok? {
      EqualsIgnoreCaseTransitive(ToString(ra.value), a, ToString(rb.value));
      TextsDistinct(ra.value, rb.value);
    }
  }

  /** Upper-case text is accepted: "SYNCED" reads as SYNCED. */
  lemma FromStringUpperCase()
    ensures FromString(Some("SYNCED")) == Ok(Synced)
    ensures FromString(Some("Not_Synced")) == Ok(NotSynced)
  {
  }

  // -------------------------------------------------------------- properties

  /** A `BoxCollaboration.Role`, known here by the text it was read from. */
  datatype Role = Role(name: string)

  /** The values `parseJSONMember` puts into the property map, and the values
      a map given to the constructor can hold. */
  datatype Property =
    | PUploadEmail(email: Object)           // a BoxUploadEmail created from the object
    | PBool(b: bool)
    | PSyncState(state: SyncState)
    | PItemCollection(collection: Object)   // a BoxIteratorItems created from the object
    | PRoles(roles: seq<Role>)
    | PString(s: string)

  /** What `parseJSONMember` did with one member. */
  datatype Parsed = Stored | Delegated | Failed(error: Exception)

  /** The roles of a JSON array of texts, converted one by one, in order. */
  function RolesOf(items: seq<Json>, roleOf: string -> Result<Role>): (r: Result<seq<Role>>)
    ensures r.Ok? <==> forall k :: 0 <= k < |items| ==> items[k].JString? && roleOf(items[k].s).Ok?
    ensures r.Ok? ==> (|r.value| == |items| &&
      forall k :: 0 <= k < |items| ==> r.value[k] == roleOf(items[k].s).value)
  {
    if items == [] then Ok([])
    else match RolesOf(items[..|items| - 1], roleOf)
      case Err(e) => Err(e)
      case Ok(init) =>
        match AsString(items[|items| - 1])
        case Err(e) => Err(e)
        case Ok(text) =>
          match roleOf(text)
          case Err(e) => Err(e)
          case Ok(role) => Ok(init + [role])
  }

  /** The property a recognised member is converted to, or the exception the
      conversion throws. */
  function PropertyOf(member: Member, roleOf: string -> Result<Role>): (r: Result<Property>)
    requires member.name in RECOGNISED
  {
    var v := member.value;
    if member.name == FIELD_FOLDER_UPLOAD_EMAIL then
      match AsObject(v)
      case Err(e) => Err(e)
      case Ok(o) => Ok(PUploadEmail(o))
    else if member.name in {FIELD_HAS_COLLABORATIONS, FIELD_CAN_NON_OWNERS_INVITE, FIELD_IS_EXTERNALLY_OWNED} then
      match AsBool(v)
      case Err(e) => Err(e)
      case Ok(b) => Ok(PBool(b))
    else if member.name == FIELD_SYNC_STATE then
      match AsString(v)
      case Err(e) => Err(e)
      case Ok(text) =>
        match FromString(Some(text))
        case Err(e) => Err(e)
        case Ok(s) => Ok(PSyncState(s))
    else if member.name == FIELD_ITEM_COLLECTION then
      match AsObject(v)
      case Err(e) => Err(e)
      case Ok(o) => Ok(PItemCollection(o))
    else
      match AsArray(v)
      case Err(e) => Err(e)
      case Ok(items) =>
        match RolesOf(items, roleOf)
        case Err(e) => Err(e)
        case Ok(roles) => Ok(PRoles(roles))
  }

  /** The kind of property each recognised name is stored as. */
  predicate StoredAs(name: string, p: Property) {
    if name == FIELD_FOLDER_UPLOAD_EMAIL then p.PUploadEmail?
    else if name == FIELD_SYNC_STATE then p.PSyncState?
    else if name == FIELD_ITEM_COLLECTION then p.PItemCollection?
    else if name == FIELD_ALLOWED_INVITEE_ROLES then p.PRoles?
    else p.PBool?
  }

  /** Each recognised member converts to the kind of property its name calls
      for, built from the member's value. */
  lemma PropertyOfKind(member: Member, roleOf: string -> Result<Role>)
    requires member.name in RECOGNISED
    ensures PropertyOf(member, roleOf).Ok? ==> StoredAs(member.name, PropertyOf(member, roleOf).value)
    ensures member.name == FIELD_ITEM_COLLECTION ==>
      (PropertyOf(member, roleOf).Ok? <==> member.value.JObject?) &&
      (member.value.JObject? ==> PropertyOf(member, roleOf) == Ok(PItemCollection(member.value.members)))
    ensures member.name == FIELD_SYNC_STATE && PropertyOf(member, roleOf).Ok? ==>
      member.value.JString? && EqualsIgnoreCase(member.value.s, ToString(PropertyOf(member, roleOf).value.state))
    ensures member.name == FIELD_ALLOWED_INVITEE_ROLES && PropertyOf(member, roleOf).Ok? ==>
      member.value.JArray? && |PropertyOf(member, roleOf).value.roles| == |member.value.items|
  {
  }

  /** `BoxFolder`: its property map `mProperties`. */
  class BoxFolder {
    var properties: map<string, Property>

    /** `BoxFolder(Map<String, Object>)`. */
    constructor (initial: map<string, Property>)
      ensures properties == initial
    {
      properties := initial;
    }

    /** `createFromId`: a folder that holds only its id and its type. */
    static method CreateFromId(folderId: string) returns (folder: BoxFolder)
      ensures fresh(folder)
      ensures folder.properties.Keys == {FIELD_ID, FIELD_TYPE}
      ensures folder.properties[FIELD_ID] == PString(folderId)
      ensures folder.properties[FIELD_TYPE] == PString(TYPE)
    {
      var folderMap: map<string, Property> := map[];
      folderMap := folderMap[FIELD_ID := PString(folderId)];
      folderMap := folderMap[FIELD_TYPE := PString(TYPE)];
      folder := new BoxFolder(folderMap);
    }

    /** `getItemCollection`: null when the map has no `item_collection` key; the
        stored collection otherwise, and a failed cast for a value of another kind. */
    function GetItemCollection(): (r: Result<Option<Object>>)
      reads this
      ensures FIELD_ITEM_COLLECTION !in properties <==> r == Ok(None)
      ensures forall c :: r == Ok(Some(c)) <==>
        FIELD_ITEM_COLLECTION in properties && properties[FIELD_ITEM_COLLECTION] == PItemCollection(c)
      ensures r.Err? ==> r.error == ClassCast
    {
      if FIELD_ITEM_COLLECTION !in properties then Ok(None)
      else match properties[FIELD_ITEM_COLLECTION]
        case PItemCollection(c) => Ok(Some(c))
        case _ => Err(ClassCast)
    }

    /** `parseJSONMember`: a recognised member is converted and stored under its
        own name, and nothing else is touched; a conversion that throws stores
        nothing; any other member is left to the superclass. */
    method ParseJsonMember(member: Member, roleOf: string -> Result<Role>) returns (r: Parsed)
      modifies this
      ensures r == Delegated <==> member.name !in RECOGNISED
      ensures r == Delegated ==> properties == old(properties)
      ensures member.name in RECOGNISED ==>
        match PropertyOf(member, roleOf)
        case Ok(p) => r == Stored && properties == old(properties)[member.name := p]
        case Err(e) => r == Failed(e) && properties == old(properties)
    {
      var name, value := member.name, member.value;
      if name == FIELD_FOLDER_UPLOAD_EMAIL {
        var obj := AsObject(value);
        if obj.Err? {
          return Failed(obj.error);
        }
        properties := properties[FIELD_FOLDER_UPLOAD_EMAIL := PUploadEmail(obj.value)];
        return Stored;
      } else if name == FIELD_HAS_COLLABORATIONS {
        var b := AsBool(value);
        if b.Err? {
          return Failed(b.error);
        }
        properties := properties[FIELD_HAS_COLLABORATIONS := PBool(b.value)];
        return Stored;
      } else if name == FIELD_SYNC_STATE {
        var text := AsString(value);
        if text.Err? {
          return Failed(text.error);
        }
        var state := FromString(Some(text.value));
        if state.Err? {
          return Failed(state.error);
        }
        properties := properties[FIELD_SYNC_STATE := PSyncState(state.value)];
        return Stored;
      } else if name == FIELD_CAN_NON_OWNERS_INVITE {
        var b := AsBool(value);
        if b.Err? {
          return Failed(b.error);
        }
        properties := properties[FIELD_CAN_NON_OWNERS_INVITE := PBool(b.value)];
        return Stored;
      } else if name == FIELD_ITEM_COLLECTION {
        var obj := AsObject(value);
        if obj.Err? {
          return Failed(obj.error);
        }
        properties := properties[FIELD_ITEM_COLLECTION := PItemCollection(obj.value)];
        return Stored;
      } else if name == FIELD_IS_EXTERNALLY_OWNED {
        var b := AsBool(value);
        if b.Err? {
          return Failed(b.error);
        }
        properties := properties[FIELD_IS_EXTERNALLY_OWNED := PBool(b.value)];
        return Stored;
      } else if name == FIELD_ALLOWED_INVITEE_ROLES {
        var arr := AsArray(value);
        if arr.Err? {
          return Failed(arr.error);
        }
        var items := arr.value;
        var roles: seq<Role> := [];
        for i := 0 to |items|
          invariant RolesOf(items[..i], roleOf) == Ok(roles)
        {
          assert items[..i + 1][..i] == items[..i];
          var text := AsString(items[i]);
          if text.Err? {
            RolesPrefixFails(items, i + 1, roleOf);
            return Failed(text.error);
          }
          var role := roleOf(text.value);
          if role.Err? {
            RolesPrefixFails(items, i + 1, roleOf);
            return Failed(role.error);
          }
          roles := roles + [role.value];
        }
        assert items[..|items|] == items;
        properties := properties[FIELD_ALLOWED_INVITEE_ROLES := PRoles(roles)];
        return Stored;
      }
      return Delegated;
    }
  }

  /** A conversion failure in a prefix of the roles array fails the whole array
      with the same exception. */
  lemma {:induction false} RolesPrefixFails(items: seq<Json>, k: nat, roleOf: string -> Result<Role>)
    requires k <= |items|
    requires RolesOf(items[..k], roleOf).Err?
    ensures RolesOf(items, roleOf) == RolesOf(items[..k], roleOf)
    decreases |items| - k
  {
    if k < |items| {
      assert items[..k + 1][..k] == items[..k];
      RolesPrefixFails(items, k + 1, roleOf);
    } else {
      assert items[..k] == items;
    }
  }
}
