/** The `Property` record of the editor document (src/Model/Property.php). */
module PropertyModel {
  import opened Wrappers
  import opened JsonTree

  const TYPE_OBJECT: string := "object"
  const TYPE_MAP: string := "map"
  const TYPE_ARRAY: string := "array"
  const TYPE_STRING: string := "string"
  const TYPE_INTEGER: string := "integer"
  const TYPE_NUMBER: string := "number"
  const TYPE_BOOLEAN: string := "boolean"
  const TYPE_ANY: string := "any"
  const TYPE_GENERIC: string := "generic"

  /** The keys `jsonSerialize` can emit, in the order it emits them. */
  const PROPERTY_KEYS: seq<string> :=
    ["name", "description", "type", "format", "deprecated", "reference", "generic", "template"]

  /** The fields of a property; `kind` is the source's `type` field. */
  datatype PropertyData = PropertyData(
    name: Option<string>,
    description: Option<string>,
    kind: Option<string>,
    format: Option<string>,
    deprecated: Option<bool>,
    reference: Option<string>,
    generic: Option<string>,
    template: Option<Members>)

  /** `new Property([])`: every field null. */
  const EmptyProperty: PropertyData := PropertyData(None, None, None, None, None, None, None, None)

  /** The first entry of a non-empty `refs` list, the legacy way of naming a property's reference. */
  function LegacyRef(property: Members): Option<Json> {
    match Get(property, "refs")
    case Some(JArray(items)) => if |items| > 0 then Some(items[0]) else None
    case _ => None
  }

  /** Property::byLayer: rewrites the legacy `refs` entry into `reference`/`generic`. */
  function ByLayer(property: Members): (r: Members)
    ensures LegacyRef(property).None? ==> r == property
    ensures LegacyRef(property) == Some(JString("T")) &&
            (Get(property, "type") == Some(JString(TYPE_MAP)) || Get(property, "type") == Some(JString(TYPE_ARRAY)))
            ==> Get(r, "reference") == Some(JString(TYPE_GENERIC)) && Get(r, "generic") == Some(JString("T"))
    ensures LegacyRef(property) == Some(JString("T")) &&
            Get(property, "type") != Some(JString(TYPE_MAP)) && Get(property, "type") != Some(JString(TYPE_ARRAY))
            ==> r == property
    ensures LegacyRef(property).Some? && LegacyRef(property) != Some(JString("T"))
            ==> Get(r, "reference") == LegacyRef(property) && Get(r, "generic") == Get(property, "generic")
    ensures forall k :: k != "reference" && k != "generic" ==> Get(r, k) == Get(property, k)
  {
    match LegacyRef(property)
    case None => property
    case Some(first) =>
      if first == JString("T") then
        if Get(property, "type") == Some(JString(TYPE_MAP)) || Get(property, "type") == Some(JString(TYPE_ARRAY)) then
          Put(Put(property, "reference", JString(TYPE_GENERIC)), "generic", JString("T"))
        else
          property
      else
        Put(property, "reference", first)
  }

  /** `isset($property['template']) ? (array) $property['template'] : null` */
  function TemplateEntry(property: Members): Option<Members> {
    match Get(property, "template")
    case None => None
    case Some(JNull) => None
    case Some(v) => Some(CastToArray(v))
  }

  /** The constructor: byLayer, then each field from its key, null when missing. */
  function PropertyFromArray(property: Members): (r: PropertyData)
    ensures r.name == StringEntry(property, "name") && r.description == StringEntry(property, "description")
    ensures r.kind == StringEntry(property, "type") && r.format == StringEntry(property, "format")
    ensures r.deprecated == BoolEntry(property, "deprecated")
    ensures LegacyRef(property).None? ==>
              r.reference == StringEntry(property, "reference") && r.generic == StringEntry(property, "generic")
  {
    var p := ByLayer(property);
    assert Get(p, "name") == Get(property, "name") && Get(p, "description") == Get(property, "description");
    assert Get(p, "type") == Get(property, "type") && Get(p, "format") == Get(property, "format");
    assert Get(p, "deprecated") == Get(property, "deprecated");
    PropertyData(
      StringEntry(p, "name"),
      StringEntry(p, "description"),
      StringEntry(p, "type"),
      StringEntry(p, "format"),
      BoolEntry(p, "deprecated"),
      StringEntry(p, "reference"),
      StringEntry(p, "generic"),
      TemplateEntry(p))
  }

  /**
   * The constructor leaves the reference null when neither `reference` nor
   * a legacy `refs` entry is given, and keeps an object template as its
   * members; a missing or null template stays null.
   */
  lemma PropertyFromArrayDefaults(property: Members)
    ensures LegacyRef(property).None? && Get(property, "reference") == None ==> PropertyFromArray(property).reference == None
    ensures Get(property, "template") == Some(JNull) || Get(property, "template") == None ==>
              PropertyFromArray(property).template == None
    ensures Get(property, "template").Some? && Get(property, "template").value.JObject? ==>
              PropertyFromArray(property).template == Some(Get(property, "template").value.members)
  {
    assert Get(ByLayer(property), "template") == Get(property, "template");
  }

  /**
   * A legacy `refs` list names the reference by its first entry; a first
   * entry `T` on a map or array instead makes the value the generic `T`,
   * and on any other kind leaves reference and generic as given.
   */
  lemma PropertyFromArrayLegacy(property: Members)
    requires LegacyRef(property).Some?
    ensures LegacyRef(property).value.JString? && LegacyRef(property) != Some(JString("T")) ==>
              PropertyFromArray(property).reference == Some(LegacyRef(property).value.s) &&
              PropertyFromArray(property).generic == StringEntry(property, "generic")
    ensures LegacyRef(property) == Some(JString("T")) && StringEntry(property, "type") in {Some(TYPE_MAP), Some(TYPE_ARRAY)} ==>
              PropertyFromArray(property).reference == Some(TYPE_GENERIC) && PropertyFromArray(property).generic == Some("T")
    ensures LegacyRef(property) == Some(JString("T")) && StringEntry(property, "type") !in {Some(TYPE_MAP), Some(TYPE_ARRAY)} ==>
              PropertyFromArray(property).reference == StringEntry(property, "reference") &&
              PropertyFromArray(property).generic == StringEntry(property, "generic")
  {
    var p := ByLayer(property);
    if LegacyRef(property) == Some(JString("T")) {
      assert Get(p, "type") == Get(property, "type");
    }
  }

  /** The value `jsonSerialize` reports under `key`: the field of that name, or nothing. */
  function PropertyValue(p: PropertyData, key: string): Option<Json> {
    if key == "name" then OptString(p.name)
    else if key == "description" then OptString(p.description)
    else if key == "type" then OptString(p.kind)
    else if key == "format" then OptString(p.format)
    else if key == "deprecated" then OptBool(p.deprecated)
    else if key == "reference" then OptString(p.reference)
    else if key == "generic" then OptString(p.generic)
    else if key == "template" then OptObject(p.template)
    else None
  }

  /** The key/value list jsonSerialize filters, in declaration order. */
  function PropertyFields(p: PropertyData): FieldList {
    [("name", OptString(p.name)), ("description", OptString(p.description)), ("type", OptString(p.kind)),
     ("format", OptString(p.format)), ("deprecated", OptBool(p.deprecated)), ("reference", OptString(p.reference)),
     ("generic", OptString(p.generic)), ("template", OptObject(p.template))]
  }

  /** jsonSerialize: the non-null fields, under their names, in declaration order. */
  function PropertyToArray(p: PropertyData): (r: Members)
    ensures forall k :: Get(r, k) == PropertyValue(p, k)
    ensures Keys(r) == Present(PROPERTY_KEYS, r)
  {
    var fs := PropertyFields(p);
    assert Names(fs) == PROPERTY_KEYS;
    FieldsOrder(fs);
    assert forall k :: Get(Fields(fs), k) == PropertyValue(p, k) by {
      forall k ensures Get(Fields(fs), k) == PropertyValue(p, k) {
        PropertyToArrayGet(p, k);
      }
    }
    Fields(fs)
  }

  lemma PropertyToArrayGet(p: PropertyData, k: string)
    ensures Get(Fields(PropertyFields(p)), k) == PropertyValue(p, k)
  {
    var fs := PropertyFields(p);
    if k in PROPERTY_KEYS {
      var i :| 0 <= i < |PROPERTY_KEYS| && PROPERTY_KEYS[i] == k;
      FieldsGet(fs, i);
    } else {
      assert Names(fs) == PROPERTY_KEYS;
      FieldsGetAbsent(fs, k);
    }
  }

  /** Serialising a property and constructing one from the result gives the same property back. */
  lemma PropertyArrayRoundTrip(p: PropertyData)
    ensures PropertyFromArray(PropertyToArray(p)) == p
  {
    var arr := PropertyToArray(p);
    assert Get(arr, "refs") == PropertyValue(p, "refs") == None;
    assert ByLayer(arr) == arr;
    PropertyTextRoundTrip(p);
    PropertyLinkRoundTrip(p);
  }

  lemma PropertyTextRoundTrip(p: PropertyData)
    ensures StringEntry(PropertyToArray(p), "name") == p.name
    ensures StringEntry(PropertyToArray(p), "description") == p.description
    ensures StringEntry(PropertyToArray(p), "type") == p.kind
    ensures StringEntry(PropertyToArray(p), "format") == p.format
  {
    PropertyTextRead(p, PropertyToArray(p));
  }

  /** The descriptive fields of a property, read from any object reporting its values. */
  lemma PropertyTextRead(p: PropertyData, m: Members)
    requires forall k :: Get(m, k) == PropertyValue(p, k)
    ensures StringEntry(m, "name") == p.name
    ensures StringEntry(m, "description") == p.description
    ensures StringEntry(m, "type") == p.kind
    ensures StringEntry(m, "format") == p.format
  {
    StringEntryReads(m, "name", p.name);
    StringEntryReads(m, "description", p.description);
    StringEntryReads(m, "type", p.kind);
    StringEntryReads(m, "format", p.format);
  }

  lemma PropertyLinkRoundTrip(p: PropertyData)
    ensures BoolEntry(PropertyToArray(p), "deprecated") == p.deprecated
    ensures StringEntry(PropertyToArray(p), "reference") == p.reference
    ensures StringEntry(PropertyToArray(p), "generic") == p.generic
    ensures TemplateEntry(PropertyToArray(p)) == p.template
  {
    PropertyLinkRead(p, PropertyToArray(p));
  }

  /** The linking fields of a property, read from any object reporting its values. */
  lemma PropertyLinkRead(p: PropertyData, m: Members)
    requires forall k :: Get(m, k) == PropertyValue(p, k)
    ensures BoolEntry(m, "deprecated") == p.deprecated
    ensures StringEntry(m, "reference") == p.reference
    ensures StringEntry(m, "generic") == p.generic
    ensures TemplateEntry(m) == p.template
  {
    BoolEntryReads(m, "deprecated", p.deprecated);
    StringEntryReads(m, "reference", p.reference);
    StringEntryReads(m, "generic", p.generic);
    assert Get(m, "template") == OptObject(p.template);
  }

  /** Property: a mutable record whose setters each change one field. */
  class Property {
    var name: Option<string>
    var description: Option<string>
    var kind: Option<string>
    var format: Option<string>
    var deprecated: Option<bool>
    var reference: Option<string>
    var generic: Option<string>
    var template: Option<Members>

    function Data(): PropertyData
      reads this
    {
      PropertyData(name, description, kind, format, deprecated, reference, generic, template)
    }

    constructor (property: Members)
      ensures Data() == PropertyFromArray(property)
    {
      var p := ByLayer(property);
      name := StringEntry(p, "name");
      description := StringEntry(p, "description");
      kind := StringEntry(p, "type");
      format := StringEntry(p, "format");
      deprecated := BoolEntry(p, "deprecated");
      reference := StringEntry(p, "reference");
      generic := StringEntry(p, "generic");
      template := TemplateEntry(p);
    }

    method SetName(name: Option<string>)
      modifies this
      ensures Data() == old(Data()).(name := name)
    {
      this.name := name;
    }

    method SetDescription(description: Option<string>)
      modifies this
      ensures Data() == old(Data()).(description := description)
    {
      this.description := description;
    }

    method SetType(kind: Option<string>)
      modifies this
      ensures Data() == old(Data()).(kind := kind)
    {
      this.kind := kind;
    }

    method SetFormat(format: Option<string>)
      modifies this
      ensures Data() == old(Data()).(format := format)
    {
      this.format := format;
    }

    method SetDeprecated(deprecated: Option<bool>)
      modifies this
      ensures Data() == old(Data()).(deprecated := deprecated)
    {
      this.deprecated := deprecated;
    }

    method SetReference(reference: Option<string>)
      modifies this
      ensures Data() == old(Data()).(reference := reference)
    {
      this.reference := reference;
    }

    method SetGeneric(generic: Option<string>)
      modifies this
      ensures Data() == old(Data()).(generic := generic)
    {
      this.generic := generic;
    }

    method SetTemplate(template: Option<Members>)
      modifies this
      ensures Data() == old(Data()).(template := template)
    {
      this.template := template;
    }

    function JsonSerialize(): (r: Members)
      reads this
      ensures forall k :: Get(r, k) == PropertyValue(Data(), k)
      ensures Keys(r) == Present(PROPERTY_KEYS, r)
    {
      PropertyToArray(Data())
    }
  }
}
