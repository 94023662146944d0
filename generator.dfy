/**
 * The generator (src/Generator.php): turns the editor document back into a
 * TypeAPI specification. The TypeAPI and TypeSchema model objects it
 * builds are represented by the JSON objects they serialise to, each
 * holding only the fields that were set.
 */
module Generator {
  import opened Wrappers
  import opened JsonTree
  import opened PropertyModel
  import TypeModel
  import opened SecurityModel
  import opened ImportModel
  import opened ErrorModel
  import opened ArgumentModel
  import opened DocumentModel

  /** The fields of a TypeSchema property type object; `kind` is its `type`. */
  datatype SchemaFields = SchemaFields(
    kind: string,
    target: Option<string> := None,
    template: Option<Members> := None,
    schema: Option<Members> := None,
    format: Option<string> := None,
    name: Option<string> := None,
    description: Option<string> := None)

  function SchemaValue(f: SchemaFields, key: string): Option<Json> {
    if key == "type" then Some(JString(f.kind))
    else if key == "target" then OptString(f.target)
    else if key == "template" then OptObject(f.template)
    else if key == "schema" then OptObject(f.schema)
    else if key == "format" then OptString(f.format)
    else if key == "name" then OptString(f.name)
    else if key == "description" then OptString(f.description)
    else None
  }

  /** A property type object as it serialises: the set fields only. */
  function SchemaNode(f: SchemaFields): (r: Members)
    ensures forall k :: Get(r, k) == SchemaValue(f, k)
  {
    var r := Field("type", Some(JString(f.kind))) + Field("target", OptString(f.target))
      + Field("template", OptObject(f.template)) + Field("schema", OptObject(f.schema))
      + Field("format", OptString(f.format)) + Field("name", OptString(f.name))
      + Field("description", OptString(f.description));
    assert forall k :: Get(r, k) == SchemaValue(f, k) by {
      forall k ensures Get(r, k) == SchemaValue(f, k) {
        SchemaNodeGet(f, k);
      }
    }
    r
  }

  lemma SchemaNodeGet(f: SchemaFields, k: string)
    ensures Get(Field("type", Some(JString(f.kind))) + Field("target", OptString(f.target))
      + Field("template", OptObject(f.template)) + Field("schema", OptObject(f.schema))
      + Field("format", OptString(f.format)) + Field("name", OptString(f.name))
      + Field("description", OptString(f.description)), k) == SchemaValue(f, k)
  {
    var f1 := Field("type", Some(JString(f.kind)));
    var f2 := f1 + Field("target", OptString(f.target));
    var f3 := f2 + Field("template", OptObject(f.template));
    var f4 := f3 + Field("schema", OptObject(f.schema));
    var f5 := f4 + Field("format", OptString(f.format));
    var f6 := f5 + Field("name", OptString(f.name));
    GetAppend(f1, Field("target", OptString(f.target)), k);
    GetAppend(f2, Field("template", OptObject(f.template)), k);
    GetAppend(f3, Field("schema", OptObject(f.schema)), k);
    GetAppend(f4, Field("format", OptString(f.format)), k);
    GetAppend(f5, Field("name", OptString(f.name)), k);
    GetAppend(f6, Field("description", OptString(f.description)), k);
  }

  /** A reference property type: `{"type": "reference", "target": target}`. */
  function ReferenceNode(target: string): (r: Members)
    ensures Get(r, "type") == Some(JString("reference")) && Get(r, "target") == Some(JString(target))
  {
    SchemaNode(SchemaFields("reference", target := Some(target)))
  }

  /** getTypeShape: a reference to `name`, wrapped in an array or a map when the shape says so. */
  function TypeShape(name: string, shape: Option<string>): (r: Members)
    ensures shape == Some(TYPE_ARRAY) || shape == Some(TYPE_MAP) ==>
              Get(r, "type") == Some(JString(shape.value)) && Get(r, "schema") == Some(JObject(ReferenceNode(name)))
    ensures shape != Some(TYPE_ARRAY) && shape != Some(TYPE_MAP) ==> r == ReferenceNode(name)
  {
    if shape == Some(TYPE_ARRAY) then SchemaNode(SchemaFields(TYPE_ARRAY, schema := Some(ReferenceNode(name))))
    else if shape == Some(TYPE_MAP) then SchemaNode(SchemaFields(TYPE_MAP, schema := Some(ReferenceNode(name))))
    else ReferenceNode(name)
  }

  /** The scalar kinds resolveReferenceType spells out as property types of their own. */
  predicate IsScalarName(reference: string) {
    reference == TYPE_INTEGER || reference == TYPE_NUMBER || reference == TYPE_BOOLEAN || reference == TYPE_ANY
  }

  /**
   * resolveReferenceType: the value schema of a map, array or argument. A
   * built-in kind gives that kind (a string with its format when one is
   * given, a generic with its name); any other name a reference to it.
   */
  function ResolveReferenceType(reference: Option<string>, generic: Option<string>, format: Option<string>): (r: Result<Members>)
    ensures r.Fail? <==> EmptyString(reference)
    ensures r.Fail? ==> r.error == EmptyReference
    ensures r.Ok? ==> Get(r.value, "type") == Some(JString(
              if reference.value == TYPE_STRING || reference.value == TYPE_GENERIC || IsScalarName(reference.value)
              then reference.value else "reference"))
  {
    if EmptyString(reference) then Fail(EmptyReference)
    else
      var name := reference.value;
      if name == TYPE_STRING then
        Ok(SchemaNode(SchemaFields(TYPE_STRING, format := if EmptyString(format) then None else format)))
      else if IsScalarName(name) then Ok(SchemaNode(SchemaFields(name)))
      else if name == TYPE_GENERIC then Ok(SchemaNode(SchemaFields(TYPE_GENERIC, name := generic)))
      else Ok(ReferenceNode(name))
  }

  /** The property kinds the generator writes out, with the legacy `union` written as `any`. */
  predicate IsGeneratedKind(kind: Option<string>) {
    kind.Some? && (kind.value in {TYPE_OBJECT, TYPE_MAP, TYPE_ARRAY, TYPE_STRING, TYPE_GENERIC} || IsScalarName(kind.value)
                   || kind.value == "union")
  }

  /**
   * generatePropertyType: the TypeSchema property type for a property of
   * the editor, carrying its description; an unknown kind fails.
   */
  function GeneratePropertyType(p: PropertyData): (r: Result<Members>)
    ensures !IsGeneratedKind(p.kind) ==> r == Fail(UnknownPropertyType)
    ensures IsGeneratedKind(p.kind) && p.kind != Some(TYPE_MAP) && p.kind != Some(TYPE_ARRAY) ==> r.Ok?
    ensures r.Ok? ==> Get(r.value, "description") == OptString(p.description)
    ensures r.Ok? && p.kind != Some(TYPE_STRING) ==> Get(r.value, "format").None?
    ensures r.Ok? && p.kind == Some(TYPE_STRING) ==> Get(r.value, "format") == OptString(p.format)
    ensures r.Fail? ==> r.error in {UnknownPropertyType, EmptyReference}
  {
    var description := p.description;
    if p.kind == Some(TYPE_OBJECT) then
      Ok(SchemaNode(SchemaFields("reference", target := p.reference, description := description)))
    else if p.kind == Some(TYPE_MAP) || p.kind == Some(TYPE_ARRAY) then
      var schema :- ResolveReferenceType(p.reference, p.generic, p.format);
      Ok(SchemaNode(SchemaFields(p.kind.value, schema := Some(schema), description := description)))
    else if p.kind == Some(TYPE_STRING) then
      Ok(SchemaNode(SchemaFields(TYPE_STRING, format := p.format, description := description)))
    else if p.kind.Some? && IsScalarName(p.kind.value) then
      Ok(SchemaNode(SchemaFields(p.kind.value, description := description)))
    else if p.kind == Some(TYPE_GENERIC) then
      Ok(SchemaNode(SchemaFields(TYPE_GENERIC, name := p.generic, description := description)))
    else if p.kind == Some("union") then
      Ok(SchemaNode(SchemaFields(TYPE_ANY, description := description)))
    else
      Fail(UnknownPropertyType)
  }

  /**
   * The node generatePropertyType writes for each kind: an object is a
   * reference to its target, a map or array wraps the value schema, a
   * generic carries its name, the legacy union is written as any, and every
   * other kind is written under its own name.
   */
  lemma GeneratePropertyTypeKinds(p: PropertyData)
    requires GeneratePropertyType(p).Ok?
    ensures Get(GeneratePropertyType(p).value, "type") == Some(JString(
              if p.kind == Some(TYPE_OBJECT) then "reference" else if p.kind == Some("union") then TYPE_ANY else p.kind.value))
    ensures p.kind == Some(TYPE_OBJECT) ==> Get(GeneratePropertyType(p).value, "target") == OptString(p.reference)
    ensures p.kind != Some(TYPE_OBJECT) ==> Get(GeneratePropertyType(p).value, "target").None?
    ensures p.kind == Some(TYPE_MAP) || p.kind == Some(TYPE_ARRAY) ==>
              ResolveReferenceType(p.reference, p.generic, p.format).Ok? &&
              Get(GeneratePropertyType(p).value, "schema") == Some(JObject(ResolveReferenceType(p.reference, p.generic, p.format).value))
    ensures p.kind != Some(TYPE_MAP) && p.kind != Some(TYPE_ARRAY) ==> Get(GeneratePropertyType(p).value, "schema").None?
    ensures p.kind == Some(TYPE_GENERIC) ==> Get(GeneratePropertyType(p).value, "name") == OptString(p.generic)
    ensures p.kind != Some(TYPE_GENERIC) ==> Get(GeneratePropertyType(p).value, "name").None?
  {
    var f: SchemaFields;
    if p.kind == Some(TYPE_OBJECT) {
      f := SchemaFields("reference", target := p.reference, description := p.description);
    } else if p.kind == Some(TYPE_MAP) || p.kind == Some(TYPE_ARRAY) {
      f := SchemaFields(p.kind.value, schema := Some(ResolveReferenceType(p.reference, p.generic, p.format).value),
                        description := p.description);
    } else if p.kind == Some(TYPE_STRING) {
      f := SchemaFields(TYPE_STRING, format := p.format, description := p.description);
    } else if p.kind.Some? && IsScalarName(p.kind.value) {
      f := SchemaFields(p.kind.value, description := p.description);
    } else if p.kind == Some(TYPE_GENERIC) {
      f := SchemaFields(TYPE_GENERIC, name := p.generic, description := p.description);
    } else {
      f := SchemaFields(TYPE_ANY, description := p.description);
    }
    assert GeneratePropertyType(p).value == SchemaNode(f);
    SchemaNodeReads(f);
  }

  lemma SchemaNodeReads(f: SchemaFields)
    ensures Get(SchemaNode(f), "type") == Some(JString(f.kind))
    ensures Get(SchemaNode(f), "target") == OptString(f.target)
    ensures Get(SchemaNode(f), "schema") == OptObject(f.schema)
    ensures Get(SchemaNode(f), "name") == OptString(f.name)
  {
    assert Get(SchemaNode(f), "type") == SchemaValue(f, "type");
    assert Get(SchemaNode(f), "target") == SchemaValue(f, "target");
    assert Get(SchemaNode(f), "schema") == SchemaValue(f, "schema");
    assert Get(SchemaNode(f), "name") == SchemaValue(f, "name");
  }

  /** The fields of a TypeSchema definition type object; `kind` is its `type`. */
  datatype DefinitionFields = DefinitionFields(
    kind: string,
    schema: Option<Members> := None,
    parent: Option<Members> := None,
    base: Option<bool> := None,
    discriminator: Option<string> := None,
    mapping: Option<Members> := None,
    properties: Option<Members> := None,
    description: Option<string> := None)

  function DefinitionValue(f: DefinitionFields, key: string): Option<Json> {
    if key == "type" then Some(JString(f.kind))
    else if key == "schema" then OptObject(f.schema)
    else if key == "parent" then OptObject(f.parent)
    else if key == "base" then OptBool(f.base)
    else if key == "discriminator" then OptString(f.discriminator)
    else if key == "mapping" then OptObject(f.mapping)
    else if key == "properties" then OptObject(f.properties)
    else if key == "description" then OptString(f.description)
    else None
  }

  /** A definition type object as it serialises: the set fields only. */
  function DefinitionNode(f: DefinitionFields): (r: Members)
    ensures forall k :: Get(r, k) == DefinitionValue(f, k)
  {
    var r := Field("type", Some(JString(f.kind))) + Field("schema", OptObject(f.schema))
      + Field("parent", OptObject(f.parent)) + Field("base", OptBool(f.base))
      + Field("discriminator", OptString(f.discriminator)) + Field("mapping", OptObject(f.mapping))
      + Field("properties", OptObject(f.properties)) + Field("description", OptString(f.description));
    assert forall k :: Get(r, k) == DefinitionValue(f, k) by {
      forall k ensures Get(r, k) == DefinitionValue(f, k) {
        DefinitionNodeGet(f, k);
      }
    }
    r
  }

  lemma DefinitionNodeGet(f: DefinitionFields, k: string)
    ensures Get(Field("type", Some(JString(f.kind))) + Field("schema", OptObject(f.schema))
      + Field("parent", OptObject(f.parent)) + Field("base", OptBool(f.base))
      + Field("discriminator", OptString(f.discriminator)) + Field("mapping", OptObject(f.mapping))
      + Field("properties", OptObject(f.properties)) + Field("description", OptString(f.description)), k)
      == DefinitionValue(f, k)
  {
    var f1 := Field("type", Some(JString(f.kind)));
    var f2 := f1 + Field("schema", OptObject(f.schema));
    var f3 := f2 + Field("parent", OptObject(f.parent));
    var f4 := f3 + Field("base", OptBool(f.base));
    var f5 := f4 + Field("discriminator", OptString(f.discriminator));
    var f6 := f5 + Field("mapping", OptObject(f.mapping));
    var f7 := f6 + Field("properties", OptObject(f.properties));
    GetAppend(f1, Field("schema", OptObject(f.schema)), k);
    GetAppend(f2, Field("parent", OptObject(f.parent)), k);
    GetAppend(f3, Field("base", OptBool(f.base)), k);
    GetAppend(f4, Field("discriminator", OptString(f.discriminator)), k);
    GetAppend(f5, Field("mapping", OptObject(f.mapping)), k);
    GetAppend(f6, Field("properties", OptObject(f.properties)), k);
    GetAppend(f7, Field("description", OptString(f.description)), k);
  }

  /**
   * The record a generator loop builds: each item with a key is put under
   * it (a later item replacing an earlier one with the same key), items
   * without a key are skipped, and the first item whose node cannot be
   * generated fails the whole record.
   */
  function Collect<T>(items: seq<T>, key: T -> Option<string>, node: T -> Result<Members>): (r: Result<Members>)
    ensures r.Fail? ==> exists i :: 0 <= i < |items| && key(items[i]).Some? && node(items[i]) == Fail(r.error)
  {
    if items == [] then Ok([])
    else
      assert forall i :: 0 <= i < |items| - 1 ==> items[..|items| - 1][i] == items[i];
      var init :- Collect(items[..|items| - 1], key, node);
      var last := items[|items| - 1];
      match key(last)
      case None => Ok(init)
      case Some(k) =>
        var n :- node(last);
        Ok(Put(init, k, JObject(n)))
  }

  lemma {:induction false} CollectFails<T>(items: seq<T>, key: T -> Option<string>, node: T -> Result<Members>, i: nat)
    requires i <= |items| && Collect(items[..i], key, node).Fail?
    ensures Collect(items, key, node) == Collect(items[..i], key, node)
    decreases |items| - i
  {
    if i < |items| {
      assert items[..i + 1][..i] == items[..i];
      CollectFails(items, key, node, i + 1);
    } else {
      assert items[..i] == items;
    }
  }

  /** The record exists exactly when the node of every item with a key can be generated. */
  lemma {:induction false} CollectOk<T>(items: seq<T>, key: T -> Option<string>, node: T -> Result<Members>)
    ensures Collect(items, key, node).Ok? <==> forall i :: 0 <= i < |items| && key(items[i]).Some? ==> node(items[i]).Ok?
  {
    if items != [] {
      var init := items[..|items| - 1];
      CollectOk(init, key, node);
      assert forall i :: 0 <= i < |init| ==> init[i] == items[i];
    }
  }

  /** The keys of the record are exactly the keys of the items. */
  lemma CollectKeys<T>(items: seq<T>, key: T -> Option<string>, node: T -> Result<Members>)
    requires Collect(items, key, node).Ok?
    ensures forall k :: k in Keys(Collect(items, key, node).value) <==>
              exists i :: 0 <= i < |items| && key(items[i]) == Some(k)
  {
    forall k ensures k in Keys(Collect(items, key, node).value) <==> exists i :: 0 <= i < |items| && key(items[i]) == Some(k) {
      CollectKey(items, key, node, k);
    }
  }

  lemma {:induction false} CollectKey<T>(items: seq<T>, key: T -> Option<string>, node: T -> Result<Members>, k: string)
    requires Collect(items, key, node).Ok?
    ensures k in Keys(Collect(items, key, node).value) <==> exists i :: 0 <= i < |items| && key(items[i]) == Some(k)
  {
    if items != [] {
      var init := items[..|items| - 1];
      CollectKey(init, key, node, k);
      CollectLastKeys(items, key, node);
      if k in Keys(Collect(init, key, node).value) {
        var i :| 0 <= i < |init| && key(init[i]) == Some(k);
        assert key(items[i]) == Some(k);
      }
      if exists i :: 0 <= i < |items| && key(items[i]) == Some(k) {
        var i :| 0 <= i < |items| && key(items[i]) == Some(k);
        if i < |init| {
          assert key(init[i]) == Some(k);
        }
      }
    }
  }

  /** One more item adds its node under its key to the record, fails with its node's error, or is skipped. */
  lemma CollectNext<T>(items: seq<T>, key: T -> Option<string>, node: T -> Result<Members>, i: nat, record: Members)
    requires i < |items| && Collect(items[..i], key, node) == Ok(record)
    ensures key(items[i]).None? ==> Collect(items[..i + 1], key, node) == Ok(record)
    ensures key(items[i]).Some? && node(items[i]).Fail? ==> Collect(items[..i + 1], key, node) == Fail(node(items[i]).error)
    ensures key(items[i]).Some? && node(items[i]).Ok? ==>
              Collect(items[..i + 1], key, node) == Ok(Put(record, key(items[i]).value, JObject(node(items[i]).value)))
  {
    assert items[..i + 1][..i] == items[..i];
  }

  /** An item with a key that no later item reuses is in the record under that key, as its node. */
  lemma {:induction false} CollectGet<T>(items: seq<T>, key: T -> Option<string>, node: T -> Result<Members>, i: int)
    requires Collect(items, key, node).Ok? && 0 <= i < |items| && key(items[i]).Some?
    requires forall j :: i < j < |items| ==> key(items[j]) != key(items[i])
    ensures node(items[i]).Ok?
    ensures Get(Collect(items, key, node).value, key(items[i]).value) == Some(JObject(node(items[i]).value))
  {
    var init := items[..|items| - 1];
    if i < |items| - 1 {
      assert init[i] == items[i];
      assert forall j :: i < j < |init| ==> init[j] == items[j];
      CollectGet(init, key, node, i);
    }
  }

  lemma CollectLastKeys<T>(items: seq<T>, key: T -> Option<string>, node: T -> Result<Members>)
    requires items != [] && Collect(items, key, node).Ok?
    ensures Collect(items[..|items| - 1], key, node).Ok?
    ensures forall k :: k in Keys(Collect(items, key, node).value) <==>
              k in Keys(Collect(items[..|items| - 1], key, node).value) || key(items[|items| - 1]) == Some(k)
  {
    var last := items[|items| - 1];
    var record := Collect(items[..|items| - 1], key, node).value;
    if key(last).Some? {
      PutKeys(record, key(last).value, JObject(node(last).value));
    }
  }

  /** A property is put under its name, unless the name is empty. */
  function PropertyKey(p: PropertyData): Option<string> {
    if EmptyString(p.name) then None else p.name
  }

  /** The properties record of a struct. */
  function GeneratedProperties(ps: seq<PropertyData>): Result<Members> {
    Collect(ps, PropertyKey, GeneratePropertyType)
  }

  /** The parent reference of a struct: a reference to the parent carrying the template when one is set and not empty. */
  function ParentNode(t: TypeModel.TypeData): (r: Option<Members>)
    ensures r.Some? <==> t.parent.Some?
    ensures r.Some? ==> Get(r.value, "type") == Some(JString("reference")) && Get(r.value, "target") == Some(JString(t.parent.value))
    ensures r.Some? ==> Get(r.value, "template") == if t.template.Some? && |t.template.value| > 0 then Some(JObject(t.template.value)) else None
  {
    match t.parent
    case Some(parent) =>
      var template := if t.template.Some? && |t.template.value| > 0 then t.template else None;
      Some(SchemaNode(SchemaFields("reference", target := Some(parent), template := template)))
    case None => None
  }

  /** A definition the generator writes as a map or an array, by its kind; every other one becomes a struct. */
  predicate IsCollection(t: TypeModel.TypeData) {
    t.kind == Some(PropertyModel.TYPE_MAP) || t.kind == Some(PropertyModel.TYPE_ARRAY)
  }

  /**
   * generateDefinitionType: a map or array with the value schema its
   * reference names, or else a struct with its parent, base flag,
   * discriminator, mapping and properties; both carry the description.
   */
  function GeneratedDefinition(t: TypeModel.TypeData): (r: Result<Members>)
    ensures !IsCollection(t) ==> (r.Ok? <==> GeneratedProperties(t.properties).Ok?)
    ensures r.Fail? ==> r.error in {UnknownPropertyType, EmptyReference}
  {
    if IsCollection(t) then
      var schema :- ResolveReferenceType(t.reference, None, None);
      Ok(DefinitionNode(DefinitionFields(t.kind.value, schema := Some(schema), description := t.description)))
    else
      var properties :- GeneratedProperties(t.properties);
      Ok(DefinitionNode(DefinitionFields(
        TypeModel.TYPE_STRUCT,
        parent := ParentNode(t),
        base := t.base,
        discriminator := if EmptyString(t.discriminator) then None else t.discriminator,
        mapping := t.mapping,
        properties := if |t.properties| > 0 then Some(properties) else None,
        description := t.description)))
  }

  /**
   * A map or array definition fails exactly when its reference is empty,
   * and otherwise carries its kind and description.
   */
  lemma CollectionDefinitionShape(t: TypeModel.TypeData)
    requires IsCollection(t)
    ensures GeneratedDefinition(t).Fail? <==> EmptyString(t.reference)
    ensures GeneratedDefinition(t).Ok? ==>
              Get(GeneratedDefinition(t).value, "type") == Some(JString(t.kind.value)) &&
              Get(GeneratedDefinition(t).value, "description") == OptString(t.description)
  {
    var schema := ResolveReferenceType(t.reference, None, None);
    if schema.Ok? {
      DefinitionNodeKeys(DefinitionFields(t.kind.value, schema := Some(schema.value), description := t.description));
    }
  }

  /**
   * Every other definition is written as a struct, carrying its
   * description, with a properties record exactly when it has properties.
   */
  lemma StructDefinitionShape(t: TypeModel.TypeData)
    requires !IsCollection(t) && GeneratedDefinition(t).Ok?
    ensures Get(GeneratedDefinition(t).value, "type") == Some(JString(TypeModel.TYPE_STRUCT))
    ensures Get(GeneratedDefinition(t).value, "description") == OptString(t.description)
    ensures Get(GeneratedDefinition(t).value, "properties").Some? <==> |t.properties| > 0
  {
    var properties := GeneratedProperties(t.properties).value;
    DefinitionNodeKeys(DefinitionFields(
      TypeModel.TYPE_STRUCT,
      parent := ParentNode(t),
      base := t.base,
      discriminator := if EmptyString(t.discriminator) then None else t.discriminator,
      mapping := t.mapping,
      properties := if |t.properties| > 0 then Some(properties) else None,
      description := t.description));
  }

  lemma DefinitionNodeKeys(f: DefinitionFields)
    ensures Get(DefinitionNode(f), "type") == Some(JString(f.kind))
    ensures Get(DefinitionNode(f), "description") == OptString(f.description)
    ensures Get(DefinitionNode(f), "properties") == OptObject(f.properties)
  {
  }

  method GenerateProperties(ps: seq<PropertyData>) returns (r: Result<Members>)
    ensures r == GeneratedProperties(ps)
  {
    var props: Members := [];
    var i := 0;
    while i < |ps|
      invariant 0 <= i <= |ps|
      invariant GeneratedProperties(ps[..i]) == Ok(props)
    {
      assert ps[..i + 1][..i] == ps[..i];
      var name := ps[i].name;
      if !EmptyString(name) {
        var node := GeneratePropertyType(ps[i]);
        if node.Fail? {
          CollectFails(ps, PropertyKey, GeneratePropertyType, i + 1);
          return Fail(node.error);
        }
        props := Put(props, name.value, JObject(node.value));
      }
      i := i + 1;
    }
    assert ps[..i] == ps;
    return Ok(props);
  }

  /** generateDefinitionType: fills a fresh definition object according to the kind. */
  method GenerateDefinitionType(t: TypeModel.TypeData) returns (r: Result<Members>)
    ensures r == GeneratedDefinition(t)
  {
    var result: DefinitionFields;
    if IsCollection(t) {
      var schema := ResolveReferenceType(t.reference, None, None);
      if schema.Fail? {
        return Fail(schema.error);
      }
      result := DefinitionFields(t.kind.value, schema := Some(schema.value));
    } else {
      result := DefinitionFields(TypeModel.TYPE_STRUCT);
      result := result.(parent := ParentNode(t));
      if t.base.Some? {
        result := result.(base := t.base);
      }
      if !EmptyString(t.discriminator) {
        result := result.(discriminator := t.discriminator);
      }
      if t.mapping.Some? {
        result := result.(mapping := t.mapping);
      }
      var properties := GenerateProperties(t.properties);
      if properties.Fail? {
        return Fail(properties.error);
      }
      if |t.properties| > 0 {
        result := result.(properties := Some(properties.value));
      }
    }
    if t.description.Some? {
      result := result.(description := t.description);
    }
    return Ok(DefinitionNode(result));
  }

  /** An argument object: `{"in": location, "schema": schema}`. */
  function ArgumentNode(location: string, schema: Members): (r: Members)
    ensures forall k :: Get(r, k) == if k == "in" then Some(JString(location))
                                     else if k == "schema" then Some(JObject(schema)) else None
  {
    var f := Field("in", Some(JString(location)));
    assert forall k :: Get(f + Field("schema", Some(JObject(schema))), k) ==
                       if k == "in" then Some(JString(location)) else if k == "schema" then Some(JObject(schema)) else None by {
      forall k {
        GetAppend(f, Field("schema", Some(JObject(schema))), k);
      }
    }
    f + Field("schema", Some(JObject(schema)))
  }

  /** A response object: `{"code": code, "schema": schema}`. */
  function ResponseNode(code: int, schema: Members): (r: Members)
    ensures forall k :: Get(r, k) == if k == "code" then Some(JInt(code))
                                     else if k == "schema" then Some(JObject(schema)) else None
  {
    var f := Field("code", Some(JInt(code)));
    assert forall k :: Get(f + Field("schema", Some(JObject(schema))), k) ==
                       if k == "code" then Some(JInt(code)) else if k == "schema" then Some(JObject(schema)) else None by {
      forall k {
        GetAppend(f, Field("schema", Some(JObject(schema))), k);
      }
    }
    f + Field("schema", Some(JObject(schema)))
  }

  /** generateResponse: a 204 response has an `any` schema, every other one the shaped reference to its type. */
  function GenerateResponse(code: int, returnType: string, shape: Option<string>): (r: Members)
    ensures Get(r, "code") == Some(JInt(code))
    ensures code == 204 ==> Get(r, "schema") == Some(JObject(SchemaNode(SchemaFields(TYPE_ANY))))
    ensures code != 204 ==> Get(r, "schema") == Some(JObject(TypeShape(returnType, shape)))
  {
    ResponseNode(code, if code == 204 then SchemaNode(SchemaFields(TYPE_ANY)) else TypeShape(returnType, shape))
  }

  /** What the arguments loop of generateOperation collects: the arguments record and the last body argument. */
  datatype ArgumentsRecord = ArgumentsRecord(args: Members, legacy: Option<ArgumentData>)

  /**
   * The arguments loop: a body argument is set aside as the legacy
   * payload; an argument without a name is skipped; every other one is put
   * under its name with the value schema its type names, and must have
   * both a location and a type.
   */
  function GeneratedArguments(args: seq<ArgumentData>): (r: Result<ArgumentsRecord>)
    ensures r.Fail? ==> r.error in {ArgumentInMissing, ArgumentTypeMissing, EmptyReference}
    ensures r.Ok? && r.value.legacy.Some? ==> r.value.legacy.value.IsBody()
  {
    if args == [] then Ok(ArgumentsRecord([], None))
    else
      var state :- GeneratedArguments(args[..|args| - 1]);
      var a := args[|args| - 1];
      if a.location == Some(IN_BODY) then Ok(state.(legacy := Some(a)))
      else if EmptyString(a.name) then Ok(state)
      else if a.location.None? then Fail(ArgumentInMissing)
      else if a.kind.None? then Fail(ArgumentTypeMissing)
      else
        var schema :- ResolveReferenceType(a.kind, None, None);
        Ok(state.(args := Put(state.args, a.name.value, JObject(ArgumentNode(a.location.value, schema)))))
  }

  lemma {:induction false} GeneratedArgumentsFails(args: seq<ArgumentData>, i: nat)
    requires i <= |args| && GeneratedArguments(args[..i]).Fail?
    ensures GeneratedArguments(args) == GeneratedArguments(args[..i])
    decreases |args| - i
  {
    if i < |args| {
      assert args[..i + 1][..i] == args[..i];
      GeneratedArgumentsFails(args, i + 1);
    } else {
      assert args[..i] == args;
    }
  }

  /** The key an argument is put under in the arguments record: its name, unless it is a body argument or has no name. */
  function ArgumentKey(a: ArgumentData): (r: Option<string>)
    ensures r.Some? <==> !a.IsBody() && !EmptyString(a.name)
    ensures r.Some? ==> r == a.name
  {
    if a.IsBody() || EmptyString(a.name) then None else a.name
  }

  /**
   * The arguments record holds exactly the names of the arguments that are
   * not body arguments: a body argument is never put under its name.
   */
  lemma GeneratedArgumentsKeys(args: seq<ArgumentData>)
    requires GeneratedArguments(args).Ok?
    ensures forall k :: k in Keys(GeneratedArguments(args).value.args) <==>
              exists i :: 0 <= i < |args| && ArgumentKey(args[i]) == Some(k)
  {
    forall k ensures k in Keys(GeneratedArguments(args).value.args) <==> exists i :: 0 <= i < |args| && ArgumentKey(args[i]) == Some(k) {
      GeneratedArgumentsKey(args, k);
    }
  }

  lemma {:induction false} GeneratedArgumentsKey(args: seq<ArgumentData>, k: string)
    requires GeneratedArguments(args).Ok?
    ensures k in Keys(GeneratedArguments(args).value.args) <==> exists i :: 0 <= i < |args| && ArgumentKey(args[i]) == Some(k)
  {
    if args != [] {
      var init := args[..|args| - 1];
      GeneratedArgumentsLastKeys(args);
      GeneratedArgumentsKey(init, k);
      if k in Keys(GeneratedArguments(init).value.args) {
        var i :| 0 <= i < |init| && ArgumentKey(init[i]) == Some(k);
        assert ArgumentKey(args[i]) == Some(k);
      }
      if exists i :: 0 <= i < |args| && ArgumentKey(args[i]) == Some(k) {
        var i :| 0 <= i < |args| && ArgumentKey(args[i]) == Some(k);
        if i < |init| {
          assert ArgumentKey(init[i]) == Some(k);
        }
      }
    }
  }

  lemma {:induction false} GeneratedArgumentsLastKeys(args: seq<ArgumentData>)
    requires args != [] && GeneratedArguments(args).Ok?
    ensures GeneratedArguments(args[..|args| - 1]).Ok?
    ensures forall k :: k in Keys(GeneratedArguments(args).value.args) <==>
              k in Keys(GeneratedArguments(args[..|args| - 1]).value.args) || ArgumentKey(args[|args| - 1]) == Some(k)
  {
    var last := args[|args| - 1];
    var before := GeneratedArguments(args[..|args| - 1]).value;
    if ArgumentKey(last).Some? {
      var schema := ResolveReferenceType(last.kind, None, None).value;
      var node := JObject(ArgumentNode(last.location.value, schema));
      assert GeneratedArguments(args).value.args == Put(before.args, last.name.value, node);
      PutKeys(before.args, last.name.value, node);
    } else {
      assert GeneratedArguments(args).value.args == before.args;
    }
  }

  /**
   * An argument with a name that no later argument reuses is in the
   * record under that name, as its location with the value schema its
   * type names.
   */
  lemma {:induction false} GeneratedArgumentsValue(args: seq<ArgumentData>, i: int)
    requires GeneratedArguments(args).Ok? && 0 <= i < |args| && ArgumentKey(args[i]).Some?
    requires forall j :: i < j < |args| ==> ArgumentKey(args[j]) != ArgumentKey(args[i])
    ensures args[i].location.Some? && ResolveReferenceType(args[i].kind, None, None).Ok?
    ensures Get(GeneratedArguments(args).value.args, args[i].name.value) ==
              Some(JObject(ArgumentNode(args[i].location.value, ResolveReferenceType(args[i].kind, None, None).value)))
  {
    var init := args[..|args| - 1];
    if i < |args| - 1 {
      assert init[i] == args[i];
      assert forall j :: i < j < |init| ==> init[j] == args[j];
      GeneratedArgumentsValue(init, i);
    }
  }

  /**
   * The legacy payload is the last body argument: there is none exactly
   * when no argument is a body argument.
   */
  lemma {:induction false} GeneratedArgumentsLegacy(args: seq<ArgumentData>)
    requires GeneratedArguments(args).Ok?
    ensures GeneratedArguments(args).value.legacy.None? <==> forall i :: 0 <= i < |args| ==> !args[i].IsBody()
    ensures GeneratedArguments(args).value.legacy.Some? ==>
              exists i :: 0 <= i < |args| && args[i] == GeneratedArguments(args).value.legacy.value &&
                          forall j :: i < j < |args| ==> !args[j].IsBody()
  {
    if args != [] {
      var init := args[..|args| - 1];
      var last := args[|args| - 1];
      GeneratedArgumentsLastLegacy(args);
      GeneratedArgumentsLegacy(init);
      LegacyStep(init, last, GeneratedArguments(init).value.legacy, GeneratedArguments(args).value.legacy);
      assert init + [last] == args;
    }
  }

  /** One more argument keeps the legacy payload the last body argument. */
  lemma LegacyStep(init: seq<ArgumentData>, last: ArgumentData, prev: Option<ArgumentData>, legacy: Option<ArgumentData>)
    requires prev.None? <==> forall i :: 0 <= i < |init| ==> !init[i].IsBody()
    requires prev.Some? ==> exists i :: 0 <= i < |init| && init[i] == prev.value && forall j :: i < j < |init| ==> !init[j].IsBody()
    requires legacy == if last.IsBody() then Some(last) else prev
    ensures legacy.None? <==> forall i :: 0 <= i < |init + [last]| ==> !(init + [last])[i].IsBody()
    ensures legacy.Some? ==>
              exists i :: 0 <= i < |init + [last]| && (init + [last])[i] == legacy.value &&
                          forall j :: i < j < |init + [last]| ==> !(init + [last])[j].IsBody()
  {
    var args := init + [last];
    assert forall i :: 0 <= i < |init| ==> args[i] == init[i];
    if last.IsBody() {
      assert args[|args| - 1] == legacy.value;
    } else if legacy.Some? {
      var i :| 0 <= i < |init| && init[i] == prev.value && forall j :: i < j < |init| ==> !init[j].IsBody();
      assert args[i] == legacy.value;
    }
  }

  lemma GeneratedArgumentsLastLegacy(args: seq<ArgumentData>)
    requires args != [] && GeneratedArguments(args).Ok?
    ensures GeneratedArguments(args[..|args| - 1]).Ok?
    ensures GeneratedArguments(args).value.legacy ==
              if args[|args| - 1].IsBody() then Some(args[|args| - 1]) else GeneratedArguments(args[..|args| - 1]).value.legacy
  {
    var state := GeneratedArguments(args[..|args| - 1]);
    assert state.Ok?;
    if !args[|args| - 1].IsBody() {
      assert GeneratedArguments(args).value.legacy == state.value.legacy;
    }
  }

  /** The HTTP methods whose operations carry a payload. */
  predicate HasBody(httpMethod: Option<string>) {
    httpMethod == Some("POST") || httpMethod == Some("PUT") || httpMethod == Some("PATCH")
  }

  /**
   * The payload argument: the operation's payload when its method has a
   * body, or else the type of the last body argument when it has one.
   */
  function PayloadArgument(op: OperationData, legacy: Option<ArgumentData>): (r: Option<Members>)
    ensures r.Some? ==> Get(r.value, "in") == Some(JString(IN_BODY))
    ensures op.payload.Some? && HasBody(op.httpMethod) ==>
              r.Some? && Get(r.value, "schema") == Some(JObject(TypeShape(op.payload.value, op.payloadShape)))
    ensures !(op.payload.Some? && HasBody(op.httpMethod)) ==> (r.Some? <==> legacy.Some? && !EmptyString(legacy.value.kind))
    ensures !(op.payload.Some? && HasBody(op.httpMethod)) && r.Some? ==>
              Get(r.value, "schema") == Some(JObject(TypeShape(legacy.value.kind.value, None)))
  {
    if op.payload.Some? && HasBody(op.httpMethod) then
      Some(ArgumentNode(IN_BODY, TypeShape(op.payload.value, op.payloadShape)))
    else if legacy.Some? && !EmptyString(legacy.value.kind) then
      Some(ArgumentNode(IN_BODY, TypeShape(legacy.value.kind.value, None)))
    else None
  }

  /** The throws loop: a response per throw, with code 500 when none is set; a throw without a type fails. */
  function GeneratedThrows(throws: seq<ErrorData>): (r: Result<seq<Json>>)
    ensures r.Ok? ==> |r.value| == |throws|
    ensures r.Fail? <==> exists i :: 0 <= i < |throws| && throws[i].kind.None?
    ensures r.Fail? ==> r.error == ThrowTypeMissing
  {
    if throws == [] then Ok([])
    else
      var init := GeneratedThrows(throws[..|throws| - 1]);
      var e := throws[|throws| - 1];
      assert forall i :: 0 <= i < |throws| - 1 ==> throws[..|throws| - 1][i] == throws[i];
      if init.Fail? then init
      else if e.kind.None? then Fail(ThrowTypeMissing)
      else Ok(init.value + [JObject(GenerateResponse(e.code.GetOr(500), e.kind.value, e.typeShape))])
  }

  /** Each throw becomes the response of its code (500 when unset) and its type, in order. */
  lemma {:induction false} GeneratedThrowsEach(throws: seq<ErrorData>)
    requires GeneratedThrows(throws).Ok?
    ensures forall i :: 0 <= i < |throws| ==>
              GeneratedThrows(throws).value[i] ==
              JObject(GenerateResponse(throws[i].code.GetOr(500), throws[i].kind.value, throws[i].typeShape))
  {
    if throws != [] {
      var init := throws[..|throws| - 1];
      GeneratedThrowsEach(init);
      assert forall i :: 0 <= i < |init| ==> init[i] == throws[i];
    }
  }

  /** The response of an operation: a 204 code (200 when unset) gives an `any` response; otherwise its return type, if any. */
  function ReturnNode(op: OperationData): (r: Option<Members>)
    ensures op.httpCode.GetOr(200) == 204 ==>
              r.Some? && Get(r.value, "code") == Some(JInt(204)) &&
              Get(r.value, "schema") == Some(JObject(SchemaNode(SchemaFields(TYPE_ANY))))
    ensures op.httpCode.GetOr(200) != 204 ==> (r.Some? <==> op.returnType.Some?)
    ensures op.httpCode.GetOr(200) != 204 && r.Some? ==>
              Get(r.value, "code") == Some(JInt(op.httpCode.GetOr(200))) &&
              Get(r.value, "schema") == Some(JObject(TypeShape(op.returnType.value, op.returnShape)))
  {
    var code := op.httpCode.GetOr(200);
    if code == 204 then Some(GenerateResponse(204, "", None))
    else if op.returnType.Some? then Some(GenerateResponse(code, op.returnType.value, op.returnShape))
    else None
  }

  /** The fields of a TypeAPI operation object; `response` is its `return`. */
  datatype OperationFields = OperationFields(
    description: Option<string>,
    httpMethod: Option<string>,
    httpPath: Option<string>,
    arguments: Option<Members>,
    throws: Option<seq<Json>>,
    response: Option<Members>,
    stability: Option<int>,
    security: Option<seq<Json>>,
    authorization: Option<bool>)

  function OperationValue(f: OperationFields, key: string): Option<Json> {
    if key == "description" then OptString(f.description)
    else if key == "method" then OptString(f.httpMethod)
    else if key == "path" then OptString(f.httpPath)
    else if key == "arguments" then OptObject(f.arguments)
    else if key == "throws" then OptList(f.throws)
    else if key == "return" then OptObject(f.response)
    else if key == "stability" then OptInt(f.stability)
    else if key == "security" then OptList(f.security)
    else if key == "authorization" then OptBool(f.authorization)
    else None
  }

  /** An operation object as it serialises: the set fields only. */
  function OperationNode(f: OperationFields): (r: Members)
    ensures forall k :: Get(r, k) == OperationValue(f, k)
  {
    var r := Field("description", OptString(f.description)) + Field("method", OptString(f.httpMethod))
      + Field("path", OptString(f.httpPath)) + Field("arguments", OptObject(f.arguments))
      + Field("throws", OptList(f.throws)) + Field("return", OptObject(f.response))
      + Field("stability", OptInt(f.stability)) + Field("security", OptList(f.security))
      + Field("authorization", OptBool(f.authorization));
    assert forall k :: Get(r, k) == OperationValue(f, k) by {
      forall k ensures Get(r, k) == OperationValue(f, k) {
        OperationNodeGet(f, k);
      }
    }
    r
  }

  lemma OperationNodeGet(f: OperationFields, k: string)
    ensures Get(Field("description", OptString(f.description)) + Field("method", OptString(f.httpMethod))
      + Field("path", OptString(f.httpPath)) + Field("arguments", OptObject(f.arguments))
      + Field("throws", OptList(f.throws)) + Field("return", OptObject(f.response))
      + Field("stability", OptInt(f.stability)) + Field("security", OptList(f.security))
      + Field("authorization", OptBool(f.authorization)), k) == OperationValue(f, k)
  {
    var f1 := Field("description", OptString(f.description));
    var f2 := f1 + Field("method", OptString(f.httpMethod));
    var f3 := f2 + Field("path", OptString(f.httpPath));
    var f4 := f3 + Field("arguments", OptObject(f.arguments));
    var f5 := f4 + Field("throws", OptList(f.throws));
    var f6 := f5 + Field("return", OptObject(f.response));
    var f7 := f6 + Field("stability", OptInt(f.stability));
    var f8 := f7 + Field("security", OptList(f.security));
    GetAppend(f1, Field("method", OptString(f.httpMethod)), k);
    GetAppend(f2, Field("path", OptString(f.httpPath)), k);
    GetAppend(f3, Field("arguments", OptObject(f.arguments)), k);
    GetAppend(f4, Field("throws", OptList(f.throws)), k);
    GetAppend(f5, Field("return", OptObject(f.response)), k);
    GetAppend(f6, Field("stability", OptInt(f.stability)), k);
    GetAppend(f7, Field("security", OptList(f.security)), k);
    GetAppend(f8, Field("authorization", OptBool(f.authorization)), k);
  }

  /** The arguments record of an operation with its payload argument put under `payload`. */
  function WithPayload(args: Members, payload: Option<Members>): Members {
    match payload
    case Some(p) => Put(args, "payload", JObject(p))
    case None => args
  }

  /**
   * generateOperation as a value: the operation object with description,
   * method and path, the arguments (payload included) when there are any,
   * the throws when there are any, the response, stability, security and
   * authorization; tags are not written.
   */
  function OperationObject(op: OperationData): (r: Result<OperationFields>)
    ensures r.Fail? ==> r.error in {ArgumentInMissing, ArgumentTypeMissing, EmptyReference, ThrowTypeMissing}
    ensures r.Ok? <==> GeneratedArguments(op.arguments).Ok? && GeneratedThrows(op.throws).Ok?
    ensures r.Ok? ==> r.value.throws == if |op.throws| > 0 then Some(GeneratedThrows(op.throws).value) else None
  {
    var args :- GeneratedArguments(op.arguments);
    var record := WithPayload(args.args, PayloadArgument(op, args.legacy));
    var throws :- GeneratedThrows(op.throws);
    Ok(OperationFields(
      op.description, op.httpMethod, op.httpPath,
      if |record| > 0 then Some(record) else None,
      if |op.throws| > 0 then Some(throws) else None,
      ReturnNode(op), op.stability, op.security, op.authorization))
  }

  /**
   * The arguments object of an operation is left out exactly when there
   * are no named arguments and no payload; otherwise it holds the named
   * arguments and, under `payload`, the payload argument.
   */
  lemma OperationObjectArguments(op: OperationData)
    requires OperationObject(op).Ok?
    ensures var g := GeneratedArguments(op.arguments).value;
            var payload := PayloadArgument(op, g.legacy);
            var arguments := OperationObject(op).value.arguments;
            (arguments.None? <==> |g.args| == 0 && payload.None?) &&
            (arguments.Some? ==>
               forall k :: Get(arguments.value, k) ==
                             (if k == "payload" && payload.Some? then Some(JObject(payload.value)) else Get(g.args, k)))
  {
  }

  /** The operation object as it serialises. */
  function GeneratedOperation(op: OperationData): (r: Result<Members>)
    ensures r.Ok? <==> GeneratedArguments(op.arguments).Ok? && GeneratedThrows(op.throws).Ok?
  {
    var f :- OperationObject(op);
    Ok(OperationNode(f))
  }

  /** An operation is generated exactly when its arguments are and every throw has a type. */
  lemma GeneratedOperationOk(op: OperationData)
    ensures GeneratedOperation(op).Ok? <==>
              GeneratedArguments(op.arguments).Ok? && forall i :: 0 <= i < |op.throws| ==> op.throws[i].kind.Some?
  {
  }

  /**
   * A generated operation has a `return` exactly when the code is 204 or a
   * return type is set, `throws` exactly when there are throws, the method
   * and path as given, and never tags.
   */
  lemma GeneratedOperationKeys(op: OperationData)
    requires GeneratedOperation(op).Ok?
    ensures Get(GeneratedOperation(op).value, "return").Some? <==> op.httpCode.GetOr(200) == 204 || op.returnType.Some?
    ensures Get(GeneratedOperation(op).value, "throws").Some? <==> |op.throws| > 0
    ensures Get(GeneratedOperation(op).value, "method") == OptString(op.httpMethod)
    ensures Get(GeneratedOperation(op).value, "path") == OptString(op.httpPath)
    ensures Get(GeneratedOperation(op).value, "tags") == None
    ensures Get(GeneratedOperation(op).value, "arguments") == OptObject(OperationObject(op).value.arguments)
  {
    var f := OperationObject(op).value;
    OperationObjectFields(op);
    OperationNodeKeys(f);
  }

  lemma OperationNodeKeys(f: OperationFields)
    ensures Get(OperationNode(f), "return") == OptObject(f.response)
    ensures Get(OperationNode(f), "throws") == OptList(f.throws)
    ensures Get(OperationNode(f), "method") == OptString(f.httpMethod)
    ensures Get(OperationNode(f), "path") == OptString(f.httpPath)
    ensures Get(OperationNode(f), "tags") == None
    ensures Get(OperationNode(f), "arguments") == OptObject(f.arguments)
  {
  }

  lemma OperationObjectFields(op: OperationData)
    requires OperationObject(op).Ok?
    ensures OperationObject(op).value.response == ReturnNode(op)
    ensures OperationObject(op).value.throws.Some? <==> |op.throws| > 0
    ensures OperationObject(op).value.httpMethod == op.httpMethod
    ensures OperationObject(op).value.httpPath == op.httpPath
  {
  }

  /** The arguments loop of generateOperation. */
  method GenerateArguments(args: seq<ArgumentData>) returns (r: Result<ArgumentsRecord>)
    ensures r == GeneratedArguments(args)
  {
    var record: Members := [];
    var legacy: Option<ArgumentData> := None;
    var i := 0;
    while i < |args|
      invariant 0 <= i <= |args|
      invariant GeneratedArguments(args[..i]) == Ok(ArgumentsRecord(record, legacy))
    {
      assert args[..i + 1][..i] == args[..i];
      var a := args[i];
      if a.location == Some(IN_BODY) {
        legacy := Some(a);
      } else if !EmptyString(a.name) {
        if a.location.None? || a.kind.None? {
          GeneratedArgumentsFails(args, i + 1);
          return Fail(if a.location.None? then ArgumentInMissing else ArgumentTypeMissing);
        }
        var schema := ResolveReferenceType(a.kind, None, None);
        if schema.Fail? {
          GeneratedArgumentsFails(args, i + 1);
          return Fail(schema.error);
        }
        record := Put(record, a.name.value, JObject(ArgumentNode(a.location.value, schema.value)));
      }
      i := i + 1;
    }
    assert args[..i] == args;
    return Ok(ArgumentsRecord(record, legacy));
  }

  /** The throws loop of generateOperation. */
  method GenerateThrows(throws: seq<ErrorData>) returns (r: Result<seq<Json>>)
    ensures r == GeneratedThrows(throws)
  {
    var result: seq<Json> := [];
    var i := 0;
    while i < |throws|
      invariant 0 <= i <= |throws|
      invariant GeneratedThrows(throws[..i]) == Ok(result)
    {
      assert throws[..i + 1][..i] == throws[..i];
      var e := throws[i];
      if e.kind.None? {
        assert throws[..i + 1][i] == e;
        assert GeneratedThrows(throws).Fail?;
        return Fail(ThrowTypeMissing);
      }
      result := result + [JObject(GenerateResponse(e.code.GetOr(500), e.kind.value, e.typeShape))];
      i := i + 1;
    }
    assert throws[..i] == throws;
    return Ok(result);
  }

  /** generateOperation: fills a fresh operation object step by step. */
  method GenerateOperation(op: OperationData) returns (r: Result<Members>)
    ensures r == GeneratedOperation(op)
  {
    var args := GenerateArguments(op.arguments);
    if args.Fail? {
      return Fail(args.error);
    }
    var record := WithPayload(args.value.args, PayloadArgument(op, args.value.legacy));
    var throws: Result<seq<Json>> := Ok([]);
    if |op.throws| > 0 {
      throws := GenerateThrows(op.throws);
      if throws.Fail? {
        return Fail(throws.error);
      }
    } else {
      assert op.throws == [];
    }
    var result := OperationHead(op);
    if |record| > 0 {
      result := result.(arguments := Some(record));
    }
    if |op.throws| > 0 {
      result := result.(throws := Some(throws.value));
    }
    result := result.(response := ReturnNode(op));
    result := OperationTail(op, result);
    return Ok(OperationNode(result));
  }

  /** The description, method and path of a fresh operation object, each set when the operation has one. */
  method OperationHead(op: OperationData) returns (result: OperationFields)
    ensures result == OperationFields(op.description, op.httpMethod, op.httpPath, None, None, None, None, None, None)
  {
    result := OperationFields(None, None, None, None, None, None, None, None, None);
    if op.description.Some? {
      result := result.(description := op.description);
    }
    if op.httpMethod.Some? {
      result := result.(httpMethod := op.httpMethod);
    }
    if op.httpPath.Some? {
      result := result.(httpPath := op.httpPath);
    }
  }

  /** The stability, security and authorization of the operation object, each set when the operation has one. */
  method OperationTail(op: OperationData, fields: OperationFields) returns (result: OperationFields)
    requires fields.stability.None? && fields.security.None? && fields.authorization.None?
    ensures result == fields.(stability := op.stability, security := op.security, authorization := op.authorization)
  {
    result := fields;
    if op.stability.Some? {
      result := result.(stability := op.stability);
    }
    if op.security.Some? {
      result := result.(security := op.security);
    }
    if op.authorization.Some? {
      result := result.(authorization := op.authorization);
    }
  }

  /** The security schemes the generator writes out. */
  predicate IsKnownScheme(kind: Option<string>) {
    kind == Some("httpBasic") || kind == Some("httpBearer") || kind == Some("apiKey") || kind == Some("oauth2")
  }

  /**
   * generateSecurity: the security object of the scheme's type with the
   * fields that scheme has (none for HTTP basic and bearer, location and
   * name for an API key, the URLs and scopes for OAuth2); no object for
   * an unknown scheme.
   */
  function GeneratedSecurity(security: Option<SecurityData>): (r: Option<Members>)
    ensures r.Some? <==> security.Some? && IsKnownScheme(security.value.kind)
    ensures r.Some? ==> Get(r.value, "type") == OptString(security.value.kind)
    ensures r.Some? && security.value.kind == Some("apiKey") ==>
              Get(r.value, "name") == OptString(security.value.name) && Get(r.value, "in") == OptString(security.value.location)
    ensures r.Some? && security.value.kind != Some("apiKey") ==> Get(r.value, "name").None? && Get(r.value, "in").None?
    ensures r.Some? && security.value.kind == Some("oauth2") ==>
              && Get(r.value, "tokenUrl") == OptString(security.value.tokenUrl)
              && Get(r.value, "authorizationUrl") == OptString(security.value.authorizationUrl)
              && Get(r.value, "scopes") == OptList(security.value.scopes)
    ensures r.Some? && security.value.kind != Some("oauth2") ==>
              Get(r.value, "tokenUrl").None? && Get(r.value, "authorizationUrl").None? && Get(r.value, "scopes").None?
  {
    match security
    case None => None
    case Some(s) =>
      if s.kind == Some("httpBasic") || s.kind == Some("httpBearer") then
        var written := SecurityData(s.kind, None, None, None, None, None);
        SecurityToArrayReads(written);
        Some(SecurityToArray(written))
      else if s.kind == Some("apiKey") then
        var written := SecurityData(s.kind, s.name, s.location, None, None, None);
        SecurityToArrayReads(written);
        Some(SecurityToArray(written))
      else if s.kind == Some("oauth2") then
        var written := SecurityData(s.kind, None, None, s.tokenUrl, s.authorizationUrl, s.scopes);
        SecurityToArrayReads(written);
        Some(SecurityToArray(written))
      else None
  }

  lemma SecurityToArrayReads(s: SecurityData)
    ensures Get(SecurityToArray(s), "type") == OptString(s.kind)
    ensures Get(SecurityToArray(s), "name") == OptString(s.name)
    ensures Get(SecurityToArray(s), "in") == OptString(s.location)
    ensures Get(SecurityToArray(s), "tokenUrl") == OptString(s.tokenUrl)
    ensures Get(SecurityToArray(s), "authorizationUrl") == OptString(s.authorizationUrl)
    ensures Get(SecurityToArray(s), "scopes") == OptList(s.scopes)
  {
    assert Get(SecurityToArray(s), "type") == SecurityValue(s, "type");
    assert Get(SecurityToArray(s), "name") == SecurityValue(s, "name");
    assert Get(SecurityToArray(s), "in") == SecurityValue(s, "in");
    assert Get(SecurityToArray(s), "tokenUrl") == SecurityValue(s, "tokenUrl");
    assert Get(SecurityToArray(s), "authorizationUrl") == SecurityValue(s, "authorizationUrl");
    assert Get(SecurityToArray(s), "scopes") == SecurityValue(s, "scopes");
  }

  /** The import record: each import with a non-empty alias and URL maps the alias to the URL. */
  function ImportRecord(imports: seq<ImportData>): (r: Members)
    ensures |r| <= |imports|
  {
    if imports == [] then []
    else
      var init := ImportRecord(imports[..|imports| - 1]);
      var i := imports[|imports| - 1];
      if EmptyString(i.alias) || EmptyString(i.url) then init
      else
        PutEntries(init, i.alias.value, JString(i.url.value));
        Put(init, i.alias.value, JString(i.url.value))
  }

  /** The record holds only complete imports: a non-empty alias mapped to a non-empty URL string. */
  lemma {:induction false} ImportRecordEntries(imports: seq<ImportData>)
    ensures forall e :: e in ImportRecord(imports) ==> !EmptyString(Some(e.0)) && e.1.JString? && !EmptyString(Some(e.1.s))
  {
    if imports != [] {
      var init := imports[..|imports| - 1];
      var i := imports[|imports| - 1];
      ImportRecordEntries(init);
      if !(EmptyString(i.alias) || EmptyString(i.url)) {
        PutEntries(ImportRecord(init), i.alias.value, JString(i.url.value));
      }
    }
  }

  /** Every import with a non-empty alias and URL is in the record, under its alias; the record holds nothing else. */
  lemma {:induction false} ImportRecordKeys(imports: seq<ImportData>)
    ensures forall k :: k in Keys(ImportRecord(imports)) <==>
              exists i :: 0 <= i < |imports| && !EmptyString(imports[i].alias) && !EmptyString(imports[i].url) &&
                          imports[i].alias == Some(k)
  {
    if imports != [] {
      var init := imports[..|imports| - 1];
      var last := imports[|imports| - 1];
      ImportRecordKeys(init);
      if !(EmptyString(last.alias) || EmptyString(last.url)) {
        PutKeys(ImportRecord(init), last.alias.value, JString(last.url.value));
      }
      forall k ensures k in Keys(ImportRecord(imports)) <==>
                       exists i :: 0 <= i < |imports| && !EmptyString(imports[i].alias) && !EmptyString(imports[i].url) &&
                                   imports[i].alias == Some(k) {
        if k in Keys(ImportRecord(imports)) {
          if !(EmptyString(last.alias) || EmptyString(last.url)) && k == last.alias.value {
            assert imports[|imports| - 1] == last;
          } else {
            var i :| 0 <= i < |init| && !EmptyString(init[i].alias) && !EmptyString(init[i].url) && init[i].alias == Some(k);
            assert imports[i] == init[i];
          }
        }
        if exists i :: 0 <= i < |imports| && !EmptyString(imports[i].alias) && !EmptyString(imports[i].url) &&
                       imports[i].alias == Some(k) {
          var i :| 0 <= i < |imports| && !EmptyString(imports[i].alias) && !EmptyString(imports[i].url) &&
                   imports[i].alias == Some(k);
          if i < |init| {
            assert init[i] == imports[i];
          }
        }
      }
    }
  }

  /** A complete import whose alias no later complete import reuses maps its alias to its URL. */
  lemma {:induction false} ImportRecordValue(imports: seq<ImportData>, i: int)
    requires 0 <= i < |imports| && !EmptyString(imports[i].alias) && !EmptyString(imports[i].url)
    requires forall j :: i < j < |imports| && !EmptyString(imports[j].alias) && !EmptyString(imports[j].url) ==>
               imports[j].alias != imports[i].alias
    ensures Get(ImportRecord(imports), imports[i].alias.value) == Some(JString(imports[i].url.value))
  {
    var init := imports[..|imports| - 1];
    if i < |imports| - 1 {
      assert init[i] == imports[i];
      assert forall j :: i < j < |init| ==> init[j] == imports[j];
      ImportRecordValue(init, i);
    }
  }

  /** generateImport: no import object for an empty list, the import record otherwise. */
  function GeneratedImport(imports: seq<ImportData>): (r: Option<Members>)
    ensures r.Some? <==> |imports| > 0
  {
    if |imports| == 0 then None else Some(ImportRecord(imports))
  }

  /** generateImport: puts each complete import into a fresh record. */
  method GenerateImport(imports: seq<ImportData>) returns (r: Option<Members>)
    ensures r == GeneratedImport(imports)
  {
    if |imports| == 0 {
      return None;
    }
    var record: Members := [];
    var i := 0;
    while i < |imports|
      invariant 0 <= i <= |imports|
      invariant record == ImportRecord(imports[..i])
    {
      assert imports[..i + 1][..i] == imports[..i];
      var alias := imports[i].alias;
      var url := imports[i].url;
      if !(EmptyString(alias) || EmptyString(url)) {
        record := Put(record, alias.value, JString(url.value));
      }
      i := i + 1;
    }
    assert imports[..i] == imports;
    return Some(record);
  }

  /** An operation is put under its name. */
  function OperationKey(op: OperationData): Option<string> {
    Some(op.name)
  }

  /** A definition is put under its name, unless the name is empty. */
  function DefinitionKey(t: TypeModel.TypeData): Option<string> {
    if EmptyString(t.name) then None else t.name
  }

  /** The operations record of the TypeAPI object. */
  function GeneratedOperations(ops: seq<OperationData>): Result<Members> {
    Collect(ops, OperationKey, GeneratedOperation)
  }

  /** The definitions record of the TypeAPI object. */
  function GeneratedDefinitions(types: seq<TypeModel.TypeData>): Result<Members> {
    Collect(types, DefinitionKey, GeneratedDefinition)
  }

  /** The base URL written out: the document's own when not empty, else the one passed in when not empty. */
  function BaseUrl(document: DocumentData, baseUrl: Option<string>): (r: Option<string>)
    ensures r.Some? ==> !EmptyString(r)
    ensures !EmptyString(document.baseUrl) ==> r == document.baseUrl
    ensures EmptyString(document.baseUrl) ==> r == if EmptyString(baseUrl) then None else baseUrl
  {
    if !EmptyString(document.baseUrl) then document.baseUrl
    else if !EmptyString(baseUrl) then baseUrl
    else None
  }

  /** The root written out: the name of the definition at the root index, when the index is in range. */
  function RootName(document: DocumentData): (r: Option<string>)
    ensures r.Some? <==> document.root.Some? && 0 <= document.root.value < |document.types| &&
                         document.types[document.root.value].name.Some?
    ensures r.Some? ==> r == document.types[document.root.value].name
  {
    match document.root
    case Some(i) => if 0 <= i < |document.types| then document.types[i].name else None
    case None => None
  }

  /** The fields of a TypeAPI object. */
  datatype ModelFields = ModelFields(
    baseUrl: Option<string>,
    security: Option<Members>,
    imports: Option<Members>,
    operations: Members,
    definitions: Members,
    root: Option<string>)

  function ModelValue(f: ModelFields, key: string): Option<Json> {
    if key == "baseUrl" then OptString(f.baseUrl)
    else if key == "security" then OptObject(f.security)
    else if key == "import" then OptObject(f.imports)
    else if key == "operations" then Some(JObject(f.operations))
    else if key == "definitions" then Some(JObject(f.definitions))
    else if key == "root" then OptString(f.root)
    else None
  }

  /** A TypeAPI object as it serialises: the set fields only. */
  function ModelNode(f: ModelFields): (r: Members)
    ensures forall k :: Get(r, k) == ModelValue(f, k)
  {
    var r := Field("baseUrl", OptString(f.baseUrl)) + Field("security", OptObject(f.security))
      + Field("import", OptObject(f.imports)) + Field("operations", Some(JObject(f.operations)))
      + Field("definitions", Some(JObject(f.definitions))) + Field("root", OptString(f.root));
    assert forall k :: Get(r, k) == ModelValue(f, k) by {
      forall k ensures Get(r, k) == ModelValue(f, k) {
        ModelNodeGet(f, k);
      }
    }
    r
  }

  lemma ModelNodeGet(f: ModelFields, k: string)
    ensures Get(Field("baseUrl", OptString(f.baseUrl)) + Field("security", OptObject(f.security))
      + Field("import", OptObject(f.imports)) + Field("operations", Some(JObject(f.operations)))
      + Field("definitions", Some(JObject(f.definitions))) + Field("root", OptString(f.root)), k) == ModelValue(f, k)
  {
    var f1 := Field("baseUrl", OptString(f.baseUrl));
    var f2 := f1 + Field("security", OptObject(f.security));
    var f3 := f2 + Field("import", OptObject(f.imports));
    var f4 := f3 + Field("operations", Some(JObject(f.operations)));
    var f5 := f4 + Field("definitions", Some(JObject(f.definitions)));
    GetAppend(f1, Field("security", OptObject(f.security)), k);
    GetAppend(f2, Field("import", OptObject(f.imports)), k);
    GetAppend(f3, Field("operations", Some(JObject(f.operations))), k);
    GetAppend(f4, Field("definitions", Some(JObject(f.definitions))), k);
    GetAppend(f5, Field("root", OptString(f.root)), k);
  }

  /**
   * toModel as a value: the TypeAPI object with the base URL, security,
   * imports, the operations and definitions records and the root name.
   */
  function GeneratedModel(document: DocumentData, baseUrl: Option<string>): (r: Result<Members>)
    ensures r.Ok? <==> GeneratedOperations(document.operations).Ok? && GeneratedDefinitions(document.types).Ok?
  {
    var operations :- GeneratedOperations(document.operations);
    var definitions :- GeneratedDefinitions(document.types);
    Ok(ModelNode(ModelFields(BaseUrl(document, baseUrl), GeneratedSecurity(document.security),
                             GeneratedImport(document.imports), operations, definitions, RootName(document))))
  }

  /**
   * toModel succeeds exactly when every operation and every named
   * definition can be generated; the TypeAPI object then holds the
   * operations and definitions records, the chosen base URL and the root
   * name.
   */
  lemma GeneratedModelOk(document: DocumentData, baseUrl: Option<string>)
    ensures GeneratedModel(document, baseUrl).Ok? <==>
              (forall i :: 0 <= i < |document.operations| ==> GeneratedOperation(document.operations[i]).Ok?) &&
              (forall i :: 0 <= i < |document.types| && DefinitionKey(document.types[i]).Some? ==>
                 GeneratedDefinition(document.types[i]).Ok?)
  {
    CollectOk(document.operations, OperationKey, GeneratedOperation);
    CollectOk(document.types, DefinitionKey, GeneratedDefinition);
  }

  lemma GeneratedModelSections(document: DocumentData, baseUrl: Option<string>)
    requires GeneratedModel(document, baseUrl).Ok?
    ensures Get(GeneratedModel(document, baseUrl).value, "operations") ==
              Some(JObject(GeneratedOperations(document.operations).value))
    ensures Get(GeneratedModel(document, baseUrl).value, "definitions") ==
              Some(JObject(GeneratedDefinitions(document.types).value))
    ensures Get(GeneratedModel(document, baseUrl).value, "baseUrl") == OptString(BaseUrl(document, baseUrl))
    ensures Get(GeneratedModel(document, baseUrl).value, "root") == OptString(RootName(document))
    ensures Get(GeneratedModel(document, baseUrl).value, "security") == OptObject(GeneratedSecurity(document.security))
    ensures Get(GeneratedModel(document, baseUrl).value, "import") == OptObject(GeneratedImport(document.imports))
  {
    var f := ModelFields(BaseUrl(document, baseUrl), GeneratedSecurity(document.security),
                         GeneratedImport(document.imports), GeneratedOperations(document.operations).value,
                         GeneratedDefinitions(document.types).value, RootName(document));
    assert GeneratedModel(document, baseUrl).value == ModelNode(f);
    ModelNodeKeys(f);
  }

  lemma ModelNodeKeys(f: ModelFields)
    ensures Get(ModelNode(f), "operations") == Some(JObject(f.operations))
    ensures Get(ModelNode(f), "definitions") == Some(JObject(f.definitions))
    ensures Get(ModelNode(f), "baseUrl") == OptString(f.baseUrl)
    ensures Get(ModelNode(f), "root") == OptString(f.root)
    ensures Get(ModelNode(f), "security") == OptObject(f.security)
    ensures Get(ModelNode(f), "import") == OptObject(f.imports)
  {
  }

  /** The operations loop of toModel. */
  method GenerateOperations(ops: seq<OperationData>) returns (r: Result<Members>)
    ensures r == GeneratedOperations(ops)
  {
    var record: Members := [];
    var i := 0;
    while i < |ops|
      invariant 0 <= i <= |ops|
      invariant GeneratedOperations(ops[..i]) == Ok(record)
    {
      CollectNext(ops, OperationKey, GeneratedOperation, i, record);
      var node := GenerateOperation(ops[i]);
      if node.Fail? {
        CollectFails(ops, OperationKey, GeneratedOperation, i + 1);
        return Fail(node.error);
      }
      record := Put(record, ops[i].name, JObject(node.value));
      i := i + 1;
    }
    assert ops[..i] == ops;
    return Ok(record);
  }

  /** The definitions loop of toModel. */
  method GenerateDefinitions(types: seq<TypeModel.TypeData>) returns (r: Result<Members>)
    ensures r == GeneratedDefinitions(types)
  {
    var record: Members := [];
    var i := 0;
    while i < |types|
      invariant 0 <= i <= |types|
      invariant GeneratedDefinitions(types[..i]) == Ok(record)
    {
      CollectNext(types, DefinitionKey, GeneratedDefinition, i, record);
      var name := types[i].name;
      if !EmptyString(name) {
        var node := GenerateDefinitionType(types[i]);
        if node.Fail? {
          CollectFails(types, DefinitionKey, GeneratedDefinition, i + 1);
          return Fail(node.error);
        }
        record := Put(record, name.value, JObject(node.value));
      }
      i := i + 1;
    }
    assert types[..i] == types;
    return Ok(record);
  }

  /** toModel: builds the TypeAPI object section by section. */
  method ToModel(document: DocumentData, baseUrl: Option<string>) returns (r: Result<Members>)
    ensures r == GeneratedModel(document, baseUrl)
  {
    var url := BaseUrl(document, baseUrl);
    var security := GeneratedSecurity(document.security);
    var imports := GenerateImport(document.imports);
    var operations := GenerateOperations(document.operations);
    if operations.Fail? {
      return Fail(operations.error);
    }
    var definitions := GenerateDefinitions(document.types);
    if definitions.Fail? {
      return Fail(definitions.error);
    }
    var root := RootName(document);
    return Ok(ModelNode(ModelFields(url, security, imports, operations.value, definitions.value, root)));
  }
}
