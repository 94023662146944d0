/**
 * The `Type` record of the editor document (src/Model/Type.php): a named
 * definition with its properties. The engines also set `base`,
 * `discriminator`, `mapping` and `reference` and pass the template as a
 * map, so the record here is that superset.
 */
module TypeModel {
  import opened Wrappers
  import opened JsonTree
  import opened PropertyModel

  const TYPE_STRUCT: string := "struct"
  const TYPE_REFERENCE: string := "reference"

  /** The fields of a definition; `kind` is the source's `type` field. */
  datatype TypeData = TypeData(
    name: Option<string>,
    kind: Option<string>,
    description: Option<string>,
    parent: Option<string>,
    ref: Option<string>,
    template: Option<Members>,
    required: Option<seq<Json>>,
    properties: seq<PropertyData>,
    base: Option<bool>,
    discriminator: Option<string>,
    mapping: Option<Members>,
    reference: Option<string>)

  /** `new Type([])`: every field null and no properties. */
  const EmptyType: TypeData :=
    TypeData(None, None, None, None, None, None, None, [], None, None, None, None)

  /** The entries convertProperties turns into a property: objects and lists. */
  predicate IsRecord(v: Json) {
    v.JObject? || v.JArray?
  }

  /** The records among `items`, in order. */
  function Records(items: seq<Json>): (r: seq<Json>)
    ensures |r| <= |items|
    ensures forall i :: 0 <= i < |r| ==> IsRecord(r[i])
  {
    if items == [] then []
    else
      var init := Records(items[..|items| - 1]);
      assert items == items[..|items| - 1] + [items[|items| - 1]];
      if IsRecord(items[|items| - 1]) then init + [items[|items| - 1]] else init
  }

  /** convertProperties: one property per record entry, constructed from its members, in order. */
  function ConvertedProperties(items: seq<Json>): (r: seq<PropertyData>)
    ensures |r| == |Records(items)|
    ensures forall i :: 0 <= i < |r| ==> r[i] == PropertyFromArray(CastToArray(Records(items)[i]))
  {
    seq(|Records(items)|, i requires 0 <= i < |Records(items)| => PropertyFromArray(CastToArray(Records(items)[i])))
  }

  /** The constructor: missing keys give null, `required` is kept only as a list, `properties` only from a list. */
  function TypeFromArray(entity: Members): (r: TypeData)
    ensures Get(entity, "name").None? ==> r.name.None?
    ensures Get(entity, "name").Some? && Get(entity, "name").value.JString? ==> r.name == Some(Get(entity, "name").value.s)
    ensures Get(entity, "type").None? ==> r.kind.None?
    ensures Get(entity, "type").Some? && Get(entity, "type").value.JString? ==> r.kind == Some(Get(entity, "type").value.s)
    ensures Get(entity, "description").None? ==> r.description.None?
    ensures Get(entity, "description").Some? && Get(entity, "description").value.JString? ==>
              r.description == Some(Get(entity, "description").value.s)
    ensures Get(entity, "parent").None? ==> r.parent.None?
    ensures Get(entity, "parent").Some? && Get(entity, "parent").value.JString? ==> r.parent == Some(Get(entity, "parent").value.s)
    ensures Get(entity, "ref").None? ==> r.ref.None?
    ensures Get(entity, "ref").Some? && Get(entity, "ref").value.JString? ==> r.ref == Some(Get(entity, "ref").value.s)
    ensures Get(entity, "template").None? ==> r.template.None?
    ensures Get(entity, "template").Some? && Get(entity, "template").value.JObject? ==>
              r.template == Some(Get(entity, "template").value.members)
    ensures Get(entity, "required").Some? && Get(entity, "required").value.JArray? ==>
              r.required == Some(Get(entity, "required").value.items)
    ensures GetList(entity, "required").None? ==> r.required.None?
    ensures GetList(entity, "properties").Some? ==> r.properties == ConvertedProperties(GetList(entity, "properties").value)
    ensures GetList(entity, "properties").None? ==> r.properties == []
    ensures r.base.None? && r.discriminator.None? && r.mapping.None? && r.reference.None?
  {
    TypeData(
      StringEntry(entity, "name"),
      StringEntry(entity, "type"),
      StringEntry(entity, "description"),
      StringEntry(entity, "parent"),
      StringEntry(entity, "ref"),
      ObjectEntry(entity, "template"),
      GetList(entity, "required"),
      match GetList(entity, "properties")
      case Some(items) => ConvertedProperties(items)
      case None => [],
      None, None, None, None)
  }

  /** The serialised properties, each as an object. */
  function PropertiesJson(ps: seq<PropertyData>): (r: seq<Json>)
    ensures |r| == |ps|
    ensures forall i :: 0 <= i < |ps| ==> r[i] == JObject(PropertyToArray(ps[i]))
  {
    seq(|ps|, i requires 0 <= i < |ps| => JObject(PropertyToArray(ps[i])))
  }

  /** The value `jsonSerialize` reports under `key`: `properties` always, the other fields when set. */
  function TypeValue(t: TypeData, key: string): Option<Json> {
    if key == "name" then OptString(t.name)
    else if key == "type" then OptString(t.kind)
    else if key == "description" then OptString(t.description)
    else if key == "parent" then OptString(t.parent)
    else if key == "ref" then OptString(t.ref)
    else if key == "template" then OptObject(t.template)
    else if key == "required" then OptList(t.required)
    else if key == "properties" then Some(JArray(PropertiesJson(t.properties)))
    else None
  }

  /** The keys `jsonSerialize` can emit, in the order it emits them. */
  const TYPE_KEYS: seq<string> := ["name", "type", "description", "parent", "ref", "template", "required", "properties"]

  /** The key/value list jsonSerialize filters, in declaration order; the property list is never null. */
  function TypeFields(t: TypeData): FieldList {
    [("name", OptString(t.name)), ("type", OptString(t.kind)), ("description", OptString(t.description)),
     ("parent", OptString(t.parent)), ("ref", OptString(t.ref)), ("template", OptObject(t.template)),
     ("required", OptList(t.required)), ("properties", Some(JArray(PropertiesJson(t.properties))))]
  }

  /** jsonSerialize: the non-null fields, under their names, in declaration order. */
  function TypeToArray(t: TypeData): (r: Members)
    ensures forall k :: Get(r, k) == TypeValue(t, k)
    ensures Keys(r) == Present(TYPE_KEYS, r)
  {
    var fs := TypeFields(t);
    assert Names(fs) == TYPE_KEYS;
    FieldsOrder(fs);
    assert forall k :: Get(Fields(fs), k) == TypeValue(t, k) by {
      forall k ensures Get(Fields(fs), k) == TypeValue(t, k) {
        TypeToArrayGet(t, k);
      }
    }
    Fields(fs)
  }

  lemma TypeToArrayGet(t: TypeData, k: string)
    ensures Get(Fields(TypeFields(t)), k) == TypeValue(t, k)
  {
    var fs := TypeFields(t);
    if k in TYPE_KEYS {
      var i :| 0 <= i < |TYPE_KEYS| && TYPE_KEYS[i] == k;
      FieldsGet(fs, i);
    } else {
      assert Names(fs) == TYPE_KEYS;
      FieldsGetAbsent(fs, k);
    }
  }

  /** A list made of records only is its own list of records. */
  lemma {:induction false} RecordsOfRecords(items: seq<Json>)
    requires forall i :: 0 <= i < |items| ==> IsRecord(items[i])
    ensures Records(items) == items
  {
    if items != [] {
      RecordsOfRecords(items[..|items| - 1]);
    }
  }

  /** Converting a serialised property list gives the properties back. */
  lemma PropertiesRoundTrip(ps: seq<PropertyData>)
    ensures ConvertedProperties(PropertiesJson(ps)) == ps
  {
    var s := PropertiesJson(ps);
    RecordsOfRecords(s);
    forall i | 0 <= i < |ps| ensures ConvertedProperties(s)[i] == ps[i] {
      PropertyEntryRoundTrip(ps, i);
    }
  }

  lemma PropertyEntryRoundTrip(ps: seq<PropertyData>, i: int)
    requires 0 <= i < |ps| && Records(PropertiesJson(ps)) == PropertiesJson(ps)
    ensures ConvertedProperties(PropertiesJson(ps))[i] == ps[i]
  {
    RecordAt(PropertiesJson(ps), i, PropertyToArray(ps[i]));
    PropertyArrayRoundTrip(ps[i]);
  }

  /** An object entry of a list of records is cast back to its members. */
  lemma RecordAt(items: seq<Json>, i: int, m: Members)
    requires Records(items) == items && 0 <= i < |items| && items[i] == JObject(m)
    ensures i < |Records(items)| && CastToArray(Records(items)[i]) == m
  {
  }

  /**
   * Serialising a definition and constructing one from the result gives it
   * back, as long as it holds none of the fields Type.php's jsonSerialize omits.
   */
  lemma TypeArrayRoundTrip(t: TypeData)
    requires t.base.None? && t.discriminator.None? && t.mapping.None? && t.reference.None?
    ensures TypeFromArray(TypeToArray(t)) == t
  {
    TypeFieldsRoundTrip(t);
    TypeListsRoundTrip(t);
    PropertiesRoundTrip(t.properties);
  }

  lemma TypeFieldsRoundTrip(t: TypeData)
    ensures StringEntry(TypeToArray(t), "name") == t.name
    ensures StringEntry(TypeToArray(t), "type") == t.kind
    ensures StringEntry(TypeToArray(t), "description") == t.description
    ensures StringEntry(TypeToArray(t), "parent") == t.parent
    ensures StringEntry(TypeToArray(t), "ref") == t.ref
  {
    TypeFieldsRead(t, TypeToArray(t));
  }

  /** The string fields of a definition, read from any object reporting its values. */
  lemma TypeFieldsRead(t: TypeData, m: Members)
    requires forall k :: Get(m, k) == TypeValue(t, k)
    ensures StringEntry(m, "name") == t.name
    ensures StringEntry(m, "type") == t.kind
    ensures StringEntry(m, "description") == t.description
    ensures StringEntry(m, "parent") == t.parent
    ensures StringEntry(m, "ref") == t.ref
  {
    StringEntryReads(m, "name", t.name);
    StringEntryReads(m, "type", t.kind);
    StringEntryReads(m, "description", t.description);
    StringEntryReads(m, "parent", t.parent);
    StringEntryReads(m, "ref", t.ref);
  }

  lemma TypeListsRoundTrip(t: TypeData)
    ensures ObjectEntry(TypeToArray(t), "template") == t.template
    ensures GetList(TypeToArray(t), "required") == t.required
    ensures GetList(TypeToArray(t), "properties") == Some(PropertiesJson(t.properties))
  {
    TypeListsRead(t, TypeToArray(t));
  }

  /** The template, required list and property list of a definition, read from any object reporting its values. */
  lemma TypeListsRead(t: TypeData, m: Members)
    requires forall k :: Get(m, k) == TypeValue(t, k)
    ensures ObjectEntry(m, "template") == t.template
    ensures GetList(m, "required") == t.required
    ensures GetList(m, "properties") == Some(PropertiesJson(t.properties))
  {
    ObjectEntryReads(m, "template", t.template);
    ListEntryReads(m, "required", t.required);
    ListEntryReads(m, "properties", Some(PropertiesJson(t.properties)));
  }

  /** One more entry converts to one more property when it is a record, and to nothing otherwise. */
  lemma ConvertedStep(items: seq<Json>, i: int)
    requires 0 <= i < |items|
    ensures ConvertedProperties(items[..i + 1]) ==
              if IsRecord(items[i]) then ConvertedProperties(items[..i]) + [PropertyFromArray(CastToArray(items[i]))]
              else ConvertedProperties(items[..i])
  {
    assert items[..i + 1][..i] == items[..i];
    var before := Records(items[..i]);
    var after := Records(items[..i + 1]);
    assert after == if IsRecord(items[i]) then before + [items[i]] else before;
  }

  /** The snapshots of a list of property objects. */
  function PropertiesData(ps: seq<Property>): (r: seq<PropertyData>)
    reads ps
    ensures |r| == |ps|
    ensures forall i :: 0 <= i < |ps| ==> r[i] == ps[i].Data()
  {
    seq(|ps|, i reads ps requires 0 <= i < |ps| => ps[i].Data())
  }

  /** The snapshots of a list with one more property are those of the list and the new one's. */
  lemma PropertiesDataAppend(ps: seq<Property>, p: Property)
    ensures PropertiesData(ps + [p]) == PropertiesData(ps) + [p.Data()]
  {
  }

  /** Type: a mutable definition owning a list of mutable properties. */
  class Type {
    var name: Option<string>
    var kind: Option<string>
    var description: Option<string>
    var parent: Option<string>
    var ref: Option<string>
    var template: Option<Members>
    var required: Option<seq<Json>>
    var properties: seq<Property>
    var base: Option<bool>
    var discriminator: Option<string>
    var mapping: Option<Members>
    var reference: Option<string>

    function Data(): TypeData
      reads this, properties
    {
      TypeData(name, kind, description, parent, ref, template, required,
               PropertiesData(properties), base, discriminator, mapping, reference)
    }

    constructor (entity: Members)
      ensures Data() == TypeFromArray(entity)
      ensures forall p :: p in properties ==> fresh(p)
    {
      var converted: seq<Property> := [];
      var items := GetList(entity, "properties");
      if items.Some? {
        converted := ConvertProperties(items.value);
      }
      name := StringEntry(entity, "name");
      kind := StringEntry(entity, "type");
      description := StringEntry(entity, "description");
      parent := StringEntry(entity, "parent");
      ref := StringEntry(entity, "ref");
      template := ObjectEntry(entity, "template");
      required := GetList(entity, "required");
      base := None;
      discriminator := None;
      mapping := None;
      reference := None;
      properties := converted;
    }

    /** One step of convertProperties: a fresh property read from the record, appended. */
    static method AppendProperty(ps: seq<Property>, m: Members) returns (r: seq<Property>)
      ensures PropertiesData(r) == PropertiesData(ps) + [PropertyFromArray(m)]
      ensures forall p :: p in r ==> p in ps || fresh(p)
    {
      var p := new Property(m);
      PropertiesDataAppend(ps, p);
      r := ps + [p];
    }

    /** convertProperties: a fresh property for each record entry, in order; other entries are dropped. */
    static method ConvertProperties(items: seq<Json>) returns (r: seq<Property>)
      ensures PropertiesData(r) == ConvertedProperties(items)
      ensures forall p :: p in r ==> fresh(p)
    {
      r := [];
      var i := 0;
      while i < |items|
        invariant 0 <= i <= |items|
        invariant PropertiesData(r) == ConvertedProperties(items[..i])
        invariant forall p :: p in r ==> fresh(p)
      {
        ConvertedStep(items, i);
        var item := items[i];
        if IsRecord(item) {
          r := AppendProperty(r, CastToArray(item));
        }
        i := i + 1;
      }
      assert items[..i] == items;
    }

    method SetName(name: Option<string>)
      modifies this
      ensures Data() == old(Data()).(name := name)
    {
      this.name := name;
    }

    method SetType(kind: Option<string>)
      modifies this
      ensures Data() == old(Data()).(kind := kind)
    {
      this.kind := kind;
    }

    method SetDescription(description: Option<string>)
      modifies this
      ensures Data() == old(Data()).(description := description)
    {
      this.description := description;
    }

    method SetParent(parent: Option<string>)
      modifies this
      ensures Data() == old(Data()).(parent := parent)
    {
      this.parent := parent;
    }

    method SetRef(ref: Option<string>)
      modifies this
      ensures Data() == old(Data()).(ref := ref)
    {
      this.ref := ref;
    }

    method SetTemplate(template: Option<Members>)
      modifies this
      ensures Data() == old(Data()).(template := template)
    {
      this.template := template;
    }

    method SetRequired(required: Option<seq<Json>>)
      modifies this
      ensures Data() == old(Data()).(required := required)
    {
      this.required := required;
    }

    method SetBase(base: Option<bool>)
      modifies this
      ensures Data() == old(Data()).(base := base)
    {
      this.base := base;
    }

    method SetDiscriminator(discriminator: Option<string>)
      modifies this
      ensures Data() == old(Data()).(discriminator := discriminator)
    {
      this.discriminator := discriminator;
    }

    method SetMapping(mapping: Option<Members>)
      modifies this
      ensures Data() == old(Data()).(mapping := mapping)
    {
      this.mapping := mapping;
    }

    method SetReference(reference: Option<string>)
      modifies this
      ensures Data() == old(Data()).(reference := reference)
    {
      this.reference := reference;
    }

    /** setProperties: replaces the whole list and nothing else. */
    method SetProperties(properties: seq<Property>)
      modifies this
      ensures this.properties == properties
      ensures Data() == old(Data()).(properties := PropertiesData(properties))
    {
      this.properties := properties;
    }

    /** getProperty: the property at `index`, or null when there is none. */
    function GetProperty(index: int): (r: Option<Property>)
      reads this
      ensures r.Some? <==> 0 <= index < |properties|
      ensures r.Some? ==> r.value == properties[index]
    {
      if 0 <= index < |properties| then Some(properties[index]) else None
    }

    /** indexOf: the first position holding a property with that name, or null. */
    method IndexOf(propertyName: string) returns (r: Option<nat>)
      ensures r.Some? ==> r.value < |properties| && properties[r.value].name == Some(propertyName)
      ensures r.Some? ==> forall j :: 0 <= j < r.value ==> properties[j].name != Some(propertyName)
      ensures r.None? ==> forall j :: 0 <= j < |properties| ==> properties[j].name != Some(propertyName)
    {
      var i := 0;
      while i < |properties|
        invariant 0 <= i <= |properties|
        invariant forall j :: 0 <= j < i ==> properties[j].name != Some(propertyName)
      {
        if properties[i].name == Some(propertyName) {
          return Some(i);
        }
        i := i + 1;
      }
      return None;
    }

    function JsonSerialize(): (r: Members)
      reads this, properties
      ensures forall k :: Get(r, k) == TypeValue(Data(), k)
      ensures Keys(r) == Present(TYPE_KEYS, r)
    {
      TypeToArray(Data())
    }
  }
}
