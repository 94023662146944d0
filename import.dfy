/** The `Import` record of the editor document (src/Model/Import.php): an aliased external schema and its definitions. */
module ImportModel {
  import opened Wrappers
  import opened JsonTree
  import opened PropertyModel
  import opened TypeModel

  datatype ImportData = ImportData(alias: Option<string>, url: Option<string>, types: Option<seq<TypeData>>)

  /** An entry of the list handed to convertTypes: decoded JSON, or a `Type` object built elsewhere. */
  datatype TypeEntry = Raw(value: Json) | Instance(instance: Type)

  /** The entries convertTypes keeps: records and `Type` objects. */
  predicate IsKept(e: TypeEntry) {
    e.Instance? || IsRecord(e.value)
  }

  /** The kept entries, in order. */
  function Kept(entries: seq<TypeEntry>): (r: seq<TypeEntry>)
    ensures |r| <= |entries|
    ensures forall i :: 0 <= i < |r| ==> IsKept(r[i])
  {
    if entries == [] then []
    else
      var init := Kept(entries[..|entries| - 1]);
      if IsKept(entries[|entries| - 1]) then init + [entries[|entries| - 1]] else init
  }

  /** Decoded JSON entries, as convertTypes receives them from the constructor. */
  function RawEntries(items: seq<Json>): (r: seq<TypeEntry>)
    ensures |r| == |items|
    ensures forall i :: 0 <= i < |items| ==> r[i] == Raw(items[i])
  {
    seq(|items|, i requires 0 <= i < |items| => Raw(items[i]))
  }

  /** Among decoded JSON entries convertTypes keeps exactly the records. */
  lemma {:induction false} KeptRaw(items: seq<Json>)
    ensures Kept(RawEntries(items)) == RawEntries(Records(items))
  {
    if items != [] {
      var init := items[..|items| - 1];
      KeptRaw(init);
      assert RawEntries(items)[..|items| - 1] == RawEntries(init);
      if IsRecord(items[|items| - 1]) {
        assert RawEntries(Records(items)) == RawEntries(Records(init)) + [Raw(items[|items| - 1])];
      }
    }
  }

  /** convertTypes on decoded JSON: one definition per record entry, constructed from its members, in order. */
  function ConvertedTypes(items: seq<Json>): (r: seq<TypeData>)
    ensures |r| == |Records(items)|
    ensures forall i :: 0 <= i < |r| ==> r[i] == TypeFromArray(CastToArray(Records(items)[i]))
  {
    seq(|Records(items)|, i requires 0 <= i < |Records(items)| => TypeFromArray(CastToArray(Records(items)[i])))
  }

  /** `$import['types'] ?? []` as the list convertTypes iterates: a list's items, otherwise nothing. */
  function TypesEntry(entry: Members): seq<Json> {
    match Get(entry, "types")
    case Some(JArray(items)) => items
    case _ => []
  }

  /** The constructor: alias and url default to null, the definitions to the empty list. */
  function ImportFromArray(entry: Members): (r: ImportData)
    ensures r.types.Some?
    ensures Get(entry, "types").None? ==> r.types == Some([])
    ensures Get(entry, "types").Some? && Get(entry, "types").value.JArray? ==>
              r.types == Some(ConvertedTypes(Get(entry, "types").value.items))
    ensures Get(entry, "alias").None? ==> r.alias.None?
    ensures Get(entry, "alias").Some? && Get(entry, "alias").value.JString? ==> r.alias == Some(Get(entry, "alias").value.s)
    ensures Get(entry, "url").None? ==> r.url.None?
    ensures Get(entry, "url").Some? && Get(entry, "url").value.JString? ==> r.url == Some(Get(entry, "url").value.s)
  {
    ImportData(StringEntry(entry, "alias"), StringEntry(entry, "url"), Some(ConvertedTypes(TypesEntry(entry))))
  }

  /** A nullable string serialised as such: null stays an explicit null. */
  function NullableString(o: Option<string>): Json {
    match o
    case Some(s) => JString(s)
    case None => JNull
  }

  /** The serialised definitions, each as an object. */
  function TypesJson(ts: seq<TypeData>): (r: seq<Json>)
    ensures |r| == |ts|
    ensures forall i :: 0 <= i < |ts| ==> r[i] == JObject(TypeToArray(ts[i]))
  {
    seq(|ts|, i requires 0 <= i < |ts| => JObject(TypeToArray(ts[i])))
  }

  /** The value `jsonSerialize` reports under `key`: each of the three fields, null included. */
  function ImportValue(i: ImportData, key: string): Option<Json> {
    if key == "alias" then Some(NullableString(i.alias))
    else if key == "url" then Some(NullableString(i.url))
    else if key == "types" then Some(match i.types case Some(ts) => JArray(TypesJson(ts)) case None => JNull)
    else None
  }

  /** jsonSerialize: all three keys, in the order alias, url, types, whether set or not. */
  function ImportToArray(i: ImportData): (r: Members)
    ensures Keys(r) == ["alias", "url", "types"]
    ensures forall k :: Get(r, k) == ImportValue(i, k)
  {
    var f1 := Field("alias", ImportValue(i, "alias"));
    var f2 := f1 + Field("url", ImportValue(i, "url"));
    var r := f2 + Field("types", ImportValue(i, "types"));
    assert forall k :: Get(r, k) == ImportValue(i, k) by {
      forall k ensures Get(r, k) == ImportValue(i, k) {
        GetAppend(f1, Field("url", ImportValue(i, "url")), k);
        GetAppend(f2, Field("types", ImportValue(i, "types")), k);
      }
    }
    r
  }

  /** A definition Type.php's jsonSerialize reproduces: none of the engine-only fields is set. */
  predicate Serialisable(t: TypeData) {
    t.base.None? && t.discriminator.None? && t.mapping.None? && t.reference.None?
  }

  /** Converting a serialised definition list gives the definitions back. */
  lemma TypesRoundTrip(ts: seq<TypeData>)
    requires forall t :: t in ts ==> Serialisable(t)
    ensures ConvertedTypes(TypesJson(ts)) == ts
  {
    var s := TypesJson(ts);
    RecordsOfRecords(s);
    forall i | 0 <= i < |ts| ensures ConvertedTypes(s)[i] == ts[i] {
      assert ts[i] in ts;
      TypeEntryRoundTrip(ts, i);
    }
  }

  lemma TypeEntryRoundTrip(ts: seq<TypeData>, i: int)
    requires 0 <= i < |ts| && Serialisable(ts[i]) && Records(TypesJson(ts)) == TypesJson(ts)
    ensures ConvertedTypes(TypesJson(ts))[i] == ts[i]
  {
    assert CastToArray(Records(TypesJson(ts))[i]) == TypeToArray(ts[i]);
    TypeArrayRoundTrip(ts[i]);
  }

  /**
   * Serialising an import and constructing one from the result gives it
   * back, except that a null definition list comes back empty.
   */
  lemma ImportArrayRoundTrip(i: ImportData)
    requires i.types.Some? ==> forall t :: t in i.types.value ==> Serialisable(t)
    ensures ImportFromArray(ImportToArray(i)) == i.(types := Some(i.types.GetOr([])))
  {
    ImportFieldsRoundTrip(i);
    if i.types.Some? {
      TypesRoundTrip(i.types.value);
    }
  }

  lemma ImportFieldsRoundTrip(i: ImportData)
    ensures StringEntry(ImportToArray(i), "alias") == i.alias
    ensures StringEntry(ImportToArray(i), "url") == i.url
    ensures TypesEntry(ImportToArray(i)) == match i.types case Some(ts) => TypesJson(ts) case None => []
  {
    var arr := ImportToArray(i);
    assert Get(arr, "alias") == ImportValue(i, "alias");
    assert Get(arr, "url") == ImportValue(i, "url");
    assert Get(arr, "types") == ImportValue(i, "types");
  }

  /** Every property object owned by one of the definitions. */
  function PropertyObjects(ts: seq<Type>): set<object>
    reads ts
  {
    set t, p | t in ts && p in t.properties :: p
  }

  /** The snapshots of a list of definition objects. */
  function TypesData(ts: seq<Type>): (r: seq<TypeData>)
    reads ts, PropertyObjects(ts)
    ensures |r| == |ts|
    ensures forall i :: 0 <= i < |ts| ==> r[i] == ts[i].Data()
  {
    seq(|ts|, i reads ts, PropertyObjects(ts) requires 0 <= i < |ts| =>
      assert ts[i] in ts;
      assert forall p :: p in ts[i].properties ==> p in PropertyObjects(ts);
      ts[i].Data())
  }

  /** Import: a mutable record; its definitions are `Type` objects, possibly shared with the caller. */
  class Import {
    var alias: Option<string>
    var url: Option<string>
    var types: Option<seq<Type>>

    function TypeList(): seq<Type>
      reads this
    {
      types.GetOr([])
    }

    function Data(): ImportData
      reads this, TypeList(), PropertyObjects(TypeList())
    {
      ImportData(alias, url, match types case Some(ts) => Some(TypesData(ts)) case None => None)
    }

    constructor (entry: Members)
      ensures alias == StringEntry(entry, "alias") && url == StringEntry(entry, "url")
      ensures types.Some? && TypesData(types.value) == ConvertedTypes(TypesEntry(entry))
      ensures forall t :: t in types.value ==> fresh(t)
      ensures Data() == ImportFromArray(entry)
    {
      var items := TypesEntry(entry);
      var converted := ConvertTypes(RawEntries(items));
      KeptRaw(items);
      alias := StringEntry(entry, "alias");
      url := StringEntry(entry, "url");
      types := Some(converted);
    }

    /**
     * convertTypes: a fresh definition for each record entry, each `Type`
     * object kept as it is, other entries dropped, order preserved.
     */
    static method ConvertTypes(entries: seq<TypeEntry>) returns (r: seq<Type>)
      ensures |r| == |Kept(entries)|
      ensures forall i :: 0 <= i < |r| && Kept(entries)[i].Instance? ==> r[i] == Kept(entries)[i].instance
      ensures forall i :: 0 <= i < |r| && Kept(entries)[i].Raw? ==>
                fresh(r[i]) && r[i].Data() == TypeFromArray(CastToArray(Kept(entries)[i].value))
    {
      r := [];
      var i := 0;
      while i < |entries|
        invariant 0 <= i <= |entries|
        invariant |r| == |Kept(entries[..i])|
        invariant forall j :: 0 <= j < |r| && Kept(entries[..i])[j].Instance? ==> r[j] == Kept(entries[..i])[j].instance
        invariant forall j :: 0 <= j < |r| && Kept(entries[..i])[j].Raw? ==>
                    fresh(r[j]) && r[j].Data() == TypeFromArray(CastToArray(Kept(entries[..i])[j].value))
      {
        assert entries[..i + 1][..i] == entries[..i];
        if entries[i].Instance? {
          r := r + [entries[i].instance];
        } else if IsRecord(entries[i].value) {
          var t := new Type(CastToArray(entries[i].value));
          r := r + [t];
        }
        i := i + 1;
      }
      assert entries[..i] == entries;
    }

    method SetAlias(alias: Option<string>)
      modifies this
      ensures this.alias == alias && url == old(url) && types == old(types)
    {
      this.alias := alias;
    }

    method SetUrl(url: Option<string>)
      modifies this
      ensures this.url == url && alias == old(alias) && types == old(types)
    {
      this.url := url;
    }

    /** setTypes: getTypes afterwards returns exactly this list; alias and url are unchanged. */
    method SetTypes(types: Option<seq<Type>>)
      modifies this
      ensures this.types == types && alias == old(alias) && url == old(url)
    {
      this.types := types;
    }

    function JsonSerialize(): (r: Members)
      reads this, TypeList(), PropertyObjects(TypeList())
      ensures Keys(r) == ["alias", "url", "types"]
      ensures forall k :: Get(r, k) == ImportValue(Data(), k)
    {
      ImportToArray(Data())
    }
  }
}
