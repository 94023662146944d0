/**
 * How the parser and the generator invert each other: the schema nodes
 * the generator writes are read back by the parser into the values they
 * were written from, for every value the generator writes without loss.
 */
module RoundTrip {
  import opened Wrappers
  import opened JsonTree
  import opened PropertyModel
  import TypeModel
  import opened Parser
  import opened Generator

  /** What the parser's keyword lookups find in a property type object the generator wrote. */
  lemma SchemaStrings(f: SchemaFields)
    ensures GetString(SchemaNode(f), ["type"]) == Some(f.kind)
    ensures GetString(SchemaNode(f), ["$ref", "target"]) == f.target
    ensures GetString(SchemaNode(f), ["target", "$ref"]) == f.target
    ensures GetString(SchemaNode(f), ["$generic", "name"]) == f.name
  {
    var m := SchemaNode(f);
    GetStringOnly(m, ["type"], 0, Some(f.kind));
    GetStringOnly(m, ["$ref", "target"], 1, f.target);
    GetStringOnly(m, ["target", "$ref"], 0, f.target);
    GetStringOnly(m, ["$generic", "name"], 1, f.name);
  }

  lemma SchemaTexts(f: SchemaFields)
    ensures GetString(SchemaNode(f), ["format"]) == f.format
    ensures GetString(SchemaNode(f), ["description"]) == f.description
    ensures GetBoolean(SchemaNode(f), ["deprecated"]) == None
  {
    var m := SchemaNode(f);
    GetStringOnly(m, ["format"], 0, f.format);
    GetStringOnly(m, ["description"], 0, f.description);
    FirstOfKindAbsent(m, ["deprecated"], BoolKind);
  }

  lemma SchemaObjects(f: SchemaFields)
    ensures GetObject(SchemaNode(f), ["schema", "items", "additionalProperties"]) == f.schema
    ensures GetObject(SchemaNode(f), ["schema", "additionalProperties", "items"]) == f.schema
  {
    var m := SchemaNode(f);
    GetObjectOnly(m, ["schema", "items", "additionalProperties"], 0, f.schema);
    GetObjectOnly(m, ["schema", "additionalProperties", "items"], 0, f.schema);
  }

  lemma SchemaOtherObjects(f: SchemaFields)
    ensures GetObject(SchemaNode(f), ["additionalProperties"]) == None
    ensures GetObject(SchemaNode(f), ["items"]) == None
    ensures GetObject(SchemaNode(f), ["template", "$template"]) == f.template
  {
    var m := SchemaNode(f);
    FirstOfKindAbsent(m, ["additionalProperties"], ObjectKind);
    FirstOfKindAbsent(m, ["items"], ObjectKind);
    GetObjectOnly(m, ["template", "$template"], 0, f.template);
  }

  /** resolveType reads a bare reference back as its target, with no shape. */
  lemma ReferenceResolves(name: string)
    requires !EmptyString(Some(name))
    ensures ResolveType(ReferenceNode(name)) == Ok(ResolvedType(name, None))
  {
    SchemaStrings(SchemaFields("reference", target := Some(name)));
  }

  /**
   * resolveType inverts getTypeShape: the name comes back, and so does the
   * shape when it is a map, an array or none.
   */
  lemma TypeShapeRoundTrip(name: string, shape: Option<string>)
    requires !EmptyString(Some(name)) && CollectionShape(shape)
    ensures ResolveType(TypeShape(name, shape)) == Ok(ResolvedType(name, shape))
  {
    ReferenceResolves(name);
    if shape.Some? {
      var f := SchemaFields(shape.value, schema := Some(ReferenceNode(name)));
      SchemaStrings(f);
      SchemaObjects(f);
      SchemaOtherObjects(f);
    }
  }

  /** Any other shape, `mime` among them, is not written, so it reads back as none. */
  lemma TypeShapeDropsOtherShapes(name: string, shape: Option<string>)
    requires !EmptyString(Some(name)) && !CollectionShape(shape)
    ensures ResolveType(TypeShape(name, shape)) == Ok(ResolvedType(name, None))
  {
    ReferenceResolves(name);
  }

  /** The kinds the generator writes as property type objects of their own, with no value schema. */
  predicate IsPlainNodeKind(kind: string) {
    kind == "reference" || kind == TYPE_STRING || IsScalarName(kind) || kind == TYPE_GENERIC
  }

  /** The reference or generic resolvePropertyType hands back for an optional string. */
  function Unset(s: Option<string>): string {
    if s.Some? then s.value else ""
  }

  /**
   * resolvePropertyType reads a property type object without a value
   * schema back as its kind (`reference` as object), with its target as
   * reference and its name as generic.
   */
  lemma PlainNodeResolves(f: SchemaFields)
    requires IsPlainNodeKind(f.kind) && f.schema.None?
    requires f.target.Some? ==> f.kind == "reference" && !EmptyString(f.target)
    requires f.name.Some? ==> f.kind == TYPE_GENERIC && !EmptyString(f.name)
    ensures ResolvePropertyType(SchemaNode(f)) ==
              Ok(ResolvedProperty(if f.kind == "reference" then TYPE_OBJECT else f.kind, Unset(f.target), Unset(f.name)))
  {
    SchemaStrings(f);
    SchemaObjects(f);
    SchemaOtherObjects(f);
    assert PropertyTypeName(SchemaNode(f)) == Some(f.kind);
  }

  /** parsePropertyType reads such an object back as a property of that kind. */
  lemma PlainPropertyParses(n: string, f: SchemaFields)
    requires IsPlainNodeKind(f.kind) && f.schema.None? && f.template.None?
    requires f.target.Some? ==> f.kind == "reference" && !EmptyString(f.target)
    requires f.name.Some? ==> f.kind == TYPE_GENERIC && !EmptyString(f.name)
    ensures ParsePropertyType(n, JObject(SchemaNode(f))) ==
              Ok(PropertyData(Some(n), f.description, Some(if f.kind == "reference" then TYPE_OBJECT else f.kind),
                              f.format, None, f.target, f.name, None))
  {
    PlainNodeResolves(f);
    SchemaTexts(f);
    SchemaObjects(f);
    SchemaOtherObjects(f);
  }

  /**
   * parsePropertyType reads a map or array property type object back as a
   * property of that kind whose reference and generic come from its value
   * schema.
   */
  lemma CollectionPropertyParses(n: string, kind: string, inner: Members, description: Option<string>)
    requires kind == TYPE_MAP || kind == TYPE_ARRAY
    requires ResolvePropertyType(inner).Ok?
    ensures var v := ResolvePropertyType(inner).value;
            ParsePropertyType(n, JObject(SchemaNode(SchemaFields(kind, schema := Some(inner), description := description)))) ==
              Ok(PropertyData(Some(n), description, Some(kind), None, None, NonEmpty(ValueReference(v)), NonEmpty(v.generic), None))
  {
    var f := SchemaFields(kind, schema := Some(inner), description := description);
    SchemaStrings(f);
    SchemaTexts(f);
    SchemaObjects(f);
    SchemaOtherObjects(f);
    CollectionMembersParse(n, kind, inner, description, SchemaNode(f));
  }

  /** A map or array schema, read through its lookups alone, parses as that collection property. */
  lemma CollectionMembersParse(n: string, kind: string, inner: Members, description: Option<string>, m: Members)
    requires kind == TYPE_MAP || kind == TYPE_ARRAY
    requires ResolvePropertyType(inner).Ok?
    requires GetString(m, ["type"]) == Some(kind) && GetObject(m, ["schema", "additionalProperties", "items"]) == Some(inner)
    requires GetString(m, ["description"]) == description && GetString(m, ["format"]) == None
    requires GetBoolean(m, ["deprecated"]) == None && GetObject(m, ["template", "$template"]) == None
    ensures var v := ResolvePropertyType(inner).value;
            ParsePropertyType(n, JObject(m)) ==
              Ok(PropertyData(Some(n), description, Some(kind), None, None, NonEmpty(ValueReference(v)), NonEmpty(v.generic), None))
  {
  }

  /**
   * resolvePropertyType inverts resolveReferenceType: the value schema
   * written for a reference reads back as that reference, and a generic
   * value schema as its generic name.
   */
  lemma ReferenceTypeRoundTrip(reference: string, generic: Option<string>, format: Option<string>)
    requires !EmptyString(Some(reference))
    requires generic.Some? ==> reference == TYPE_GENERIC && !EmptyString(generic)
    ensures ResolveReferenceType(Some(reference), generic, format).Ok?
    ensures var v := ResolvePropertyType(ResolveReferenceType(Some(reference), generic, format).value);
            v.Ok? && ValueReference(v.value) == reference && NonEmpty(v.value.generic) == generic
  {
    var f :=
      if reference == TYPE_STRING then SchemaFields(TYPE_STRING, format := if EmptyString(format) then None else format)
      else if IsScalarName(reference) then SchemaFields(reference)
      else if reference == TYPE_GENERIC then SchemaFields(TYPE_GENERIC, name := generic)
      else SchemaFields("reference", target := Some(reference));
    assert ResolveReferenceType(Some(reference), generic, format).value == SchemaNode(f);
    PlainNodeResolves(f);
  }

  /**
   * A property the generator writes without loss: one of the nine kinds;
   * not deprecated and without template, since neither is written; a
   * format only on a string; a reference only on an object, map or array
   * and a generic only on a generic, map or array (a map or array needs a
   * reference, and a generic only with the `generic` reference), neither
   * of them empty.
   */
  predicate WrittenWithoutLoss(p: PropertyData) {
    var collection := p.kind == Some(TYPE_MAP) || p.kind == Some(TYPE_ARRAY);
    && p.kind.Some? && p.kind.value in PROPERTY_TYPES
    && p.deprecated.None? && p.template.None?
    && (p.format.Some? ==> p.kind == Some(TYPE_STRING))
    && (p.reference.Some? ==> !EmptyString(p.reference))
    && (p.generic.Some? ==> !EmptyString(p.generic))
    && (collection ==> p.reference.Some? && (p.generic.Some? ==> p.reference == Some(TYPE_GENERIC)))
    && (!collection && p.kind != Some(TYPE_OBJECT) ==> p.reference.None?)
    && (!collection && p.kind != Some(TYPE_GENERIC) ==> p.generic.None?)
  }

  /**
   * parsePropertyType inverts generatePropertyType: a property written
   * under its name reads back as the same property.
   */
  lemma PropertyRoundTrip(n: string, p: PropertyData)
    requires WrittenWithoutLoss(p) && p.name == Some(n)
    ensures GeneratePropertyType(p).Ok?
    ensures ParsePropertyType(n, JObject(GeneratePropertyType(p).value)) == Ok(p)
  {
    var kind := p.kind.value;
    if kind == TYPE_MAP || kind == TYPE_ARRAY {
      ReferenceTypeRoundTrip(p.reference.value, p.generic, p.format);
      var inner := ResolveReferenceType(p.reference, p.generic, p.format).value;
      assert GeneratePropertyType(p) == Ok(SchemaNode(SchemaFields(kind, schema := Some(inner), description := p.description)));
      CollectionPropertyParses(n, kind, inner, p.description);
    } else {
      var f :=
        if kind == TYPE_OBJECT then SchemaFields("reference", target := p.reference, description := p.description)
        else if kind == TYPE_STRING then SchemaFields(TYPE_STRING, format := p.format, description := p.description)
        else if kind == TYPE_GENERIC then SchemaFields(TYPE_GENERIC, name := p.generic, description := p.description)
        else SchemaFields(kind, description := p.description);
      assert GeneratePropertyType(p) == Ok(SchemaNode(f));
      PlainPropertyParses(n, f);
    }
  }

  /** The legacy `union` kind is written as `any` and reads back as `any`. */
  lemma UnionReadsBackAsAny(n: string, p: PropertyData)
    requires p.kind == Some("union") && p.name == Some(n)
    ensures GeneratePropertyType(p).Ok?
    ensures ParsePropertyType(n, JObject(GeneratePropertyType(p).value)) ==
              Ok(PropertyData(Some(n), p.description, Some(TYPE_ANY), None, None, None, None, None))
  {
    var f := SchemaFields(TYPE_ANY, description := p.description);
    assert GeneratePropertyType(p) == Ok(SchemaNode(f));
    PlainPropertyParses(n, f);
  }

  /** What the parser's keyword lookups find in a definition type object the generator wrote. */
  lemma DefinitionStrings(f: DefinitionFields)
    ensures GetString(DefinitionNode(f), ["type"]) == Some(f.kind)
    ensures GetString(DefinitionNode(f), ["description"]) == f.description
    ensures GetString(DefinitionNode(f), ["discriminator"]) == f.discriminator
    ensures GetBoolean(DefinitionNode(f), ["base"]) == f.base
  {
    var m := DefinitionNode(f);
    GetStringOnly(m, ["type"], 0, Some(f.kind));
    GetStringOnly(m, ["description"], 0, f.description);
    GetStringOnly(m, ["discriminator"], 0, f.discriminator);
    GetBooleanOnly(m, ["base"], 0, f.base);
  }

  lemma DefinitionObjects(f: DefinitionFields)
    ensures GetObject(DefinitionNode(f), ["schema", "additionalProperties", "items"]) == f.schema
    ensures GetObject(DefinitionNode(f), ["properties"]) == f.properties
    ensures GetObject(DefinitionNode(f), ["mapping"]) == f.mapping
    ensures GetObject(DefinitionNode(f), ["parent"]) == f.parent
  {
    var m := DefinitionNode(f);
    GetObjectOnly(m, ["schema", "additionalProperties", "items"], 0, f.schema);
    GetObjectOnly(m, ["properties"], 0, f.properties);
    GetObjectOnly(m, ["mapping"], 0, f.mapping);
    GetObjectOnly(m, ["parent"], 0, f.parent);
  }

  /** A parent written as an object holds no string under any of the parent keywords. */
  lemma DefinitionParentStrings(f: DefinitionFields)
    requires f.parent.Some?
    ensures GetString(DefinitionNode(f), ["parent", "$ref", "$extends", "extends"]) == None
    ensures GetString(DefinitionNode(f), ["parent", "$extends"]) == None
  {
    var m := DefinitionNode(f);
    assert !HasKindAt(m, "parent", StringKind);
    FirstOfKindAbsent(m, ["$ref", "$extends", "extends"], StringKind);
    FirstOfKindAbsent(m, ["$extends"], StringKind);
    assert ["parent", "$ref", "$extends", "extends"][1..] == ["$ref", "$extends", "extends"];
    assert ["parent", "$extends"][1..] == ["$extends"];
  }

  /** Properties the generator writes without loss: each one so, each named, no two under the same name. */
  predicate PropertiesWrittenWithoutLoss(ps: seq<PropertyData>) {
    && (forall i :: 0 <= i < |ps| ==> WrittenWithoutLoss(ps[i]) && !EmptyString(ps[i].name))
    && (forall i, j :: 0 <= i < j < |ps| ==> ps[i].name != ps[j].name)
  }

  /**
   * The properties record reads back as the properties it was written
   * from, in the same order.
   */
  lemma PropertiesRoundTrip(ps: seq<PropertyData>)
    requires PropertiesWrittenWithoutLoss(ps)
    ensures GeneratedProperties(ps).Ok?
    ensures ParsedProperties(GeneratedProperties(ps).value) == Ok(ps)
  {
    forall i | 0 <= i < |ps|
      ensures GeneratePropertyType(ps[i]).Ok? &&
              ParsePropertyType(ps[i].name.value, JObject(GeneratePropertyType(ps[i]).value)) == Ok(ps[i])
    {
      PropertyRoundTrip(ps[i].name.value, ps[i]);
    }
    NamedRecordParsesBack(ps, GeneratePropertyType);
  }

  /**
   * Properties with distinct names, each of whose nodes parses back under
   * its name, are read back in order from the record of those nodes.
   */
  lemma {:induction false} NamedRecordParsesBack(ps: seq<PropertyData>, node: PropertyData -> Result<Members>)
    requires forall i, j :: 0 <= i < j < |ps| ==> ps[i].name != ps[j].name
    requires forall i :: 0 <= i < |ps| ==>
               !EmptyString(ps[i].name) && node(ps[i]).Ok? &&
               ParsePropertyType(ps[i].name.value, JObject(node(ps[i]).value)) == Ok(ps[i])
    ensures Collect(ps, PropertyKey, node).Ok?
    ensures ParsedProperties(Collect(ps, PropertyKey, node).value) == Ok(ps)
  {
    if ps != [] {
      var init := ps[..|ps| - 1];
      var last := ps[|ps| - 1];
      var name := last.name.value;
      assert forall i :: 0 <= i < |init| ==> init[i] == ps[i];
      NamedRecordParsesBack(init, node);
      var record := Collect(init, PropertyKey, node).value;
      CollectKeys(init, PropertyKey, node);
      assert name !in Keys(record) by {
        forall i | 0 <= i < |init| ensures PropertyKey(init[i]) != Some(name) {
          assert ps[i].name != ps[|ps| - 1].name;
        }
      }
      CollectAppends(ps, PropertyKey, node);
      ParsedPropertiesAppend(record, name, JObject(node(last).value));
      assert init + [last] == ps;
    }
  }

  /** A record whose next item has a fresh key grows by that item at its end. */
  lemma CollectAppends<T>(items: seq<T>, key: T -> Option<string>, node: T -> Result<Members>)
    requires items != [] && Collect(items[..|items| - 1], key, node).Ok?
    requires key(items[|items| - 1]).Some? && node(items[|items| - 1]).Ok?
    requires key(items[|items| - 1]).value !in Keys(Collect(items[..|items| - 1], key, node).value)
    ensures Collect(items, key, node) ==
              Ok(Collect(items[..|items| - 1], key, node).value +
                 [(key(items[|items| - 1]).value, JObject(node(items[|items| - 1]).value))])
  {
    var last := items[|items| - 1];
    PutAbsent(Collect(items[..|items| - 1], key, node).value, key(last).value, JObject(node(last).value));
  }

  /** Parsing a properties object with one more member at its end gives one more property at the end. */
  lemma ParsedPropertiesAppend(props: Members, name: string, value: Json)
    requires ParsedProperties(props).Ok? && ParsePropertyType(name, value).Ok?
    ensures ParsedProperties(props + [(name, value)]) ==
              Ok(ParsedProperties(props).value + [ParsePropertyType(name, value).value])
  {
    assert (props + [(name, value)])[..|props|] == props;
  }

  /** A definition without a parent holds no string under the parent keywords either. */
  lemma DefinitionNoParent(f: DefinitionFields)
    requires f.parent.None?
    ensures DefinitionParent(DefinitionNode(f)) == (None, None)
  {
    var m := DefinitionNode(f);
    DefinitionObjects(f);
    FirstOfKindAbsent(m, ["parent", "$extends"], StringKind);
  }

  /**
   * The parent object the generator writes reads back as the parent's
   * name and the template it carries.
   */
  lemma DefinitionParentRoundTrip(parent: string, template: Option<Members>, f: DefinitionFields)
    requires f.parent == Some(SchemaNode(SchemaFields("reference", target := Some(parent), template := template)))
    ensures DefinitionParent(DefinitionNode(f)) == (Some(parent), template)
  {
    var obj := SchemaFields("reference", target := Some(parent), template := template);
    DefinitionObjects(f);
    DefinitionParentStrings(f);
    SchemaObjects(obj);
    SchemaOtherObjects(obj);
    assert Get(SchemaNode(obj), "target") == Some(JString(parent));
  }

  /** resolveType reads the value schema written for a definition's reference back as that reference. */
  lemma ReferenceTypeResolves(reference: string)
    requires !EmptyString(Some(reference))
    ensures ResolveReferenceType(Some(reference), None, None).Ok?
    ensures ResolveType(ResolveReferenceType(Some(reference), None, None).value) == Ok(ResolvedType(reference, None))
  {
    if reference == TYPE_STRING || IsScalarName(reference) || reference == TYPE_GENERIC {
      var f := SchemaFields(reference);
      assert ResolveReferenceType(Some(reference), None, None).value == SchemaNode(f);
      SchemaStrings(f);
      SchemaObjects(f);
      SchemaOtherObjects(f);
    } else {
      ReferenceResolves(reference);
    }
  }

  /**
   * A definition the generator writes without loss: no `$ref` and no
   * required list (neither is written); a map or array with a non-empty
   * reference and nothing a struct has; or a struct with no reference,
   * a template only next to a parent and never empty, a discriminator
   * never empty, and properties written without loss.
   */
  predicate DefinitionWrittenWithoutLoss(t: TypeModel.TypeData) {
    && t.ref.None? && t.required.None?
    && if IsCollection(t) then
         && !EmptyString(t.reference)
         && t.parent.None? && t.template.None? && t.properties == []
         && t.base.None? && t.discriminator.None? && t.mapping.None?
       else
         && t.kind == Some(TypeModel.TYPE_STRUCT) && t.reference.None?
         && (t.template.Some? ==> t.parent.Some? && |t.template.value| > 0)
         && (t.discriminator.Some? ==> !EmptyString(t.discriminator))
         && PropertiesWrittenWithoutLoss(t.properties)
  }

  /** A map or array definition reads back as itself. */
  lemma CollectionDefinitionRoundTrip(name: string, t: TypeModel.TypeData)
    requires DefinitionWrittenWithoutLoss(t) && IsCollection(t) && t.name == Some(name)
    ensures GeneratedDefinition(t).Ok?
    ensures ParsedDefinition(name, GeneratedDefinition(t).value) == Ok(t)
  {
    ReferenceTypeResolves(t.reference.value);
    var schema := ResolveReferenceType(t.reference, None, None).value;
    var f := DefinitionFields(t.kind.value, schema := Some(schema), description := t.description);
    assert GeneratedDefinition(t) == Ok(DefinitionNode(f));
    DefinitionStrings(f);
    DefinitionObjects(f);
    DefinitionNoParent(f);
  }

  /** A struct definition reads back as itself. */
  lemma StructDefinitionRoundTrip(name: string, t: TypeModel.TypeData)
    requires DefinitionWrittenWithoutLoss(t) && !IsCollection(t) && t.name == Some(name)
    ensures GeneratedDefinition(t).Ok?
    ensures ParsedDefinition(name, GeneratedDefinition(t).value) == Ok(t)
  {
    PropertiesRoundTrip(t.properties);
    var properties := GeneratedProperties(t.properties).value;
    var f := DefinitionFields(
      TypeModel.TYPE_STRUCT,
      parent := ParentNode(t),
      base := t.base,
      discriminator := if EmptyString(t.discriminator) then None else t.discriminator,
      mapping := t.mapping,
      properties := if |t.properties| > 0 then Some(properties) else None,
      description := t.description);
    assert GeneratedDefinition(t) == Ok(DefinitionNode(f));
    DefinitionStrings(f);
    DefinitionObjects(f);
    if t.parent.Some? {
      DefinitionParentRoundTrip(t.parent.value, t.template, f);
    } else {
      DefinitionNoParent(f);
    }
    var m := DefinitionNode(f);
    assert DefinitionProperties(m) == Ok(t.properties);
    assert ResolveDefinitionType(m) == Ok(TypeModel.TYPE_STRUCT);
    assert SchemaReference(m) == Ok(None);
    ParsedDefinitionOf(name, m, t);
  }

  /** parseDefinitionType puts together the parts it reads: when each part is the definition's own, the whole is. */
  lemma ParsedDefinitionOf(name: string, m: Members, t: TypeModel.TypeData)
    requires t.name == Some(name) && t.kind.Some? && t.ref.None? && t.required.None?
    requires ResolveDefinitionType(m) == Ok(t.kind.value)
    requires DefinitionParent(m) == (t.parent, t.template)
    requires DefinitionProperties(m) == Ok(t.properties)
    requires SchemaReference(m) == Ok(t.reference)
    requires GetString(m, ["description"]) == t.description
    requires GetBoolean(m, ["base"]) == t.base
    requires NonEmpty(GetString(m, ["discriminator"]).GetOr("")) == t.discriminator
    requires GetObject(m, ["mapping"]) == t.mapping
    ensures ParsedDefinition(name, m) == Ok(t)
  {
  }

  /**
   * parseDefinitionType inverts generateDefinitionType: a definition
   * written under its name reads back as the same definition.
   */
  lemma DefinitionRoundTrip(name: string, t: TypeModel.TypeData)
    requires DefinitionWrittenWithoutLoss(t) && t.name == Some(name)
    ensures GeneratedDefinition(t).Ok?
    ensures ParsedDefinition(name, GeneratedDefinition(t).value) == Ok(t)
  {
    if IsCollection(t) {
      CollectionDefinitionRoundTrip(name, t);
    } else {
      StructDefinitionRoundTrip(name, t);
    }
  }
}
