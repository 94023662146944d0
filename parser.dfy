/**
 * The parser (src/Parser.php): reads a decoded TypeAPI/TypeSchema
 * specification and builds the editor document, failing with the reason
 * the source reports as a ParserException.
 */
module Parser {
  import opened Wrappers
  import opened JsonTree
  import opened PropertyModel
  import TypeModel
  import opened SecurityModel
  import opened ImportModel
  import opened ErrorModel
  import opened ArgumentModel
  import opened DocumentModel

  /** The definition kinds the editor knows. */
  const DEFINITION_TYPES: set<string> := {TypeModel.TYPE_STRUCT, PropertyModel.TYPE_MAP, PropertyModel.TYPE_ARRAY}

  /** The property kinds the editor knows. */
  const PROPERTY_TYPES: set<string> :=
    {TYPE_OBJECT, TYPE_MAP, TYPE_ARRAY, TYPE_STRING, TYPE_INTEGER, TYPE_NUMBER, TYPE_BOOLEAN, TYPE_ANY, TYPE_GENERIC}

  /** The shapes resolveType reports through its by-reference argument. */
  predicate CollectionShape(shape: Option<string>) {
    shape == None || shape == Some(TYPE_MAP) || shape == Some(TYPE_ARRAY)
  }

  /** The name resolveType returns and the shape it leaves in its by-reference argument. */
  datatype ResolvedType = ResolvedType(name: string, shape: Option<string>)

  /**
   * resolveType: a reference target, else a generic name, else the type
   * name; a map or array wrapping a nested schema resolves to the nested
   * schema's name and reports the collection as its shape.
   */
  function ResolveType(schema: Members): (r: Result<ResolvedType>)
    decreases JObject(schema)
    ensures r.Ok? ==> !EmptyString(Some(r.value.name))
    ensures r.Ok? ==> CollectionShape(r.value.shape)
    ensures r.Fail? ==> r.error == InvalidSchema
    ensures (EmptyString(GetString(schema, ["target", "$ref"])) && EmptyString(GetString(schema, ["$generic", "name"])) &&
             EmptyString(GetString(schema, ["type"]))) ==> r == Fail(InvalidSchema)
    ensures r.Ok? && r.value.shape.Some? ==> GetObject(schema, ["schema", "items", "additionalProperties"]).Some?
  {
    var ref := GetString(schema, ["target", "$ref"]);
    var kind := GetString(schema, ["type"]);
    var generic := GetString(schema, ["$generic", "name"]);
    if !EmptyString(ref) then Ok(ResolvedType(ref.value, None))
    else if !EmptyString(generic) then Ok(ResolvedType(generic.value, None))
    else if !EmptyString(kind) then
      match GetObject(schema, ["schema", "items", "additionalProperties"])
      case Some(nested) =>
        assert exists i :: 0 <= i < |schema| && schema[i].1 == JObject(nested) && schema[i] in schema by {
          ObjectIsMember(schema, ["schema", "items", "additionalProperties"], nested);
        }
        if kind.value == TYPE_OBJECT || kind.value == TYPE_MAP then
          var inner :- ResolveType(nested);
          Ok(ResolvedType(inner.name, Some(TYPE_MAP)))
        else if kind.value == TYPE_ARRAY then
          var inner :- ResolveType(nested);
          Ok(ResolvedType(inner.name, Some(TYPE_ARRAY)))
        else
          Ok(ResolvedType(kind.value, None))
      case None => Ok(ResolvedType(kind.value, None))
    else Fail(InvalidSchema)
  }

  /**
   * resolveType case by case: a reference target wins, then a generic
   * name, then the type name; a map, object or array type wrapping a
   * nested schema reports the collection as its shape, any other type
   * resolves to its own name with no shape.
   */
  lemma ResolveTypeCases(schema: Members)
    ensures !EmptyString(GetString(schema, ["target", "$ref"])) ==>
              ResolveType(schema) == Ok(ResolvedType(GetString(schema, ["target", "$ref"]).value, None))
    ensures EmptyString(GetString(schema, ["target", "$ref"])) && !EmptyString(GetString(schema, ["$generic", "name"])) ==>
              ResolveType(schema) == Ok(ResolvedType(GetString(schema, ["$generic", "name"]).value, None))
    ensures EmptyString(GetString(schema, ["target", "$ref"])) && EmptyString(GetString(schema, ["$generic", "name"])) &&
            !EmptyString(GetString(schema, ["type"])) &&
            (GetObject(schema, ["schema", "items", "additionalProperties"]).None? ||
             GetString(schema, ["type"]).value !in {TYPE_OBJECT, TYPE_MAP, TYPE_ARRAY}) ==>
              ResolveType(schema) == Ok(ResolvedType(GetString(schema, ["type"]).value, None))
    ensures EmptyString(GetString(schema, ["target", "$ref"])) && EmptyString(GetString(schema, ["$generic", "name"])) &&
            GetObject(schema, ["schema", "items", "additionalProperties"]).Some? && ResolveType(schema).Ok? ==>
              (GetString(schema, ["type"]) in {Some(TYPE_OBJECT), Some(TYPE_MAP)} ==> ResolveType(schema).value.shape == Some(TYPE_MAP)) &&
              (GetString(schema, ["type"]) == Some(TYPE_ARRAY) ==> ResolveType(schema).value.shape == Some(TYPE_ARRAY))
  {
  }

  /**
   * A map or array type wrapping a nested schema resolves to the name the
   * nested schema resolves to, and fails exactly when the nested schema does.
   */
  lemma ResolveTypeNested(schema: Members, nested: Members)
    requires EmptyString(GetString(schema, ["target", "$ref"])) && EmptyString(GetString(schema, ["$generic", "name"]))
    requires GetString(schema, ["type"]) in {Some(TYPE_OBJECT), Some(TYPE_MAP), Some(TYPE_ARRAY)}
    requires GetObject(schema, ["schema", "items", "additionalProperties"]) == Some(nested)
    ensures ResolveType(schema).Ok? <==> ResolveType(nested).Ok?
    ensures ResolveType(schema).Ok? ==>
              ResolveType(schema).value ==
                ResolvedType(ResolveType(nested).value.name,
                             if GetString(schema, ["type"]) == Some(TYPE_ARRAY) then Some(TYPE_ARRAY) else Some(TYPE_MAP))
  {
  }

  /** The type name resolveDefinitionType works with: the explicit one, or one inferred from the keywords present. */
  function DefinitionTypeName(t: Members): (r: Option<string>)
    ensures !EmptyString(GetString(t, ["type"])) ==> r == GetString(t, ["type"])
    ensures EmptyString(GetString(t, ["type"])) ==> (EmptyString(r) <==> !InfersDefinitionType(t))
  {
    var typeName := GetString(t, ["type"]);
    if !EmptyString(typeName) then typeName
    else if GetObject(t, ["properties"]).Some? || !EmptyString(GetString(t, ["$extends", "parent"]))
            || GetObject(t, ["parent"]).Some? then Some(TypeModel.TYPE_STRUCT)
    else if GetObject(t, ["additionalProperties"]).Some? then Some(PropertyModel.TYPE_MAP)
    else if GetObject(t, ["items"]).Some? then Some(PropertyModel.TYPE_ARRAY)
    else typeName
  }

  /** The keywords that make a definition without an explicit type a struct, a map or an array. */
  predicate InfersDefinitionType(t: Members) {
    GetObject(t, ["properties"]).Some? || !EmptyString(GetString(t, ["$extends", "parent"]))
    || GetObject(t, ["parent"]).Some? || GetObject(t, ["additionalProperties"]).Some? || GetObject(t, ["items"]).Some?
  }

  /**
   * resolveDefinitionType: the explicit or inferred kind, with `object`
   * read as `struct`; it fails when no kind can be found or the kind is
   * not one the editor knows.
   */
  function ResolveDefinitionType(t: Members): (r: Result<string>)
    ensures r.Ok? ==> r.value in DEFINITION_TYPES
    ensures !EmptyString(GetString(t, ["type"])) ==>
              (r.Ok? <==> GetString(t, ["type"]).value in DEFINITION_TYPES + {PropertyModel.TYPE_OBJECT})
    ensures !EmptyString(GetString(t, ["type"])) && r.Ok? ==>
              r.value == if GetString(t, ["type"]) == Some(PropertyModel.TYPE_OBJECT) then TypeModel.TYPE_STRUCT
                         else GetString(t, ["type"]).value
    ensures EmptyString(GetString(t, ["type"])) ==> (r.Ok? <==> InfersDefinitionType(t))
    ensures EmptyString(GetString(t, ["type"])) && !InfersDefinitionType(t) ==> r == Fail(UnresolvedDefinitionType)
    ensures EmptyString(GetString(t, ["type"])) && r.Ok? ==>
              r.value == if GetObject(t, ["properties"]).Some? || !EmptyString(GetString(t, ["$extends", "parent"]))
                            || GetObject(t, ["parent"]).Some? then TypeModel.TYPE_STRUCT
                         else if GetObject(t, ["additionalProperties"]).Some? then PropertyModel.TYPE_MAP
                         else PropertyModel.TYPE_ARRAY
  {
    var typeName := DefinitionTypeName(t);
    var normalised := if typeName == Some(PropertyModel.TYPE_OBJECT) then Some(TypeModel.TYPE_STRUCT) else typeName;
    if EmptyString(normalised) then Fail(UnresolvedDefinitionType)
    else if normalised.value !in DEFINITION_TYPES then Fail(InvalidDefinitionType)
    else Ok(normalised.value)
  }

  /** The kind resolvePropertyType returns, with what it leaves in its `reference` and `generic` arguments. */
  datatype ResolvedProperty = ResolvedProperty(kind: string, reference: string, generic: string)

  /** The type name resolvePropertyType starts from: the explicit one, or map/array inferred from the keywords. */
  function PropertyTypeName(t: Members): (r: Option<string>)
    ensures !EmptyString(GetString(t, ["type"])) ==> r == GetString(t, ["type"])
    ensures EmptyString(GetString(t, ["type"])) ==>
              (EmptyString(r) <==> GetObject(t, ["additionalProperties"]).None? && GetObject(t, ["items"]).None?)
    ensures EmptyString(GetString(t, ["type"])) && !EmptyString(r) ==> r.value in {TYPE_MAP, TYPE_ARRAY}
  {
    var typeName := GetString(t, ["type"]);
    if !EmptyString(typeName) then typeName
    else if GetObject(t, ["additionalProperties"]).Some? then Some(TYPE_MAP)
    else if GetObject(t, ["items"]).Some? then Some(TYPE_ARRAY)
    else typeName
  }

  /** How a map or array records its value schema: an object by its target, a nested collection as `kind:reference`, anything else by its kind. */
  function ValueReference(inner: ResolvedProperty): (r: string)
    ensures inner.kind == TYPE_OBJECT ==> r == inner.reference
    ensures inner.kind != TYPE_OBJECT ==> inner.kind <= r
    ensures inner.kind in {TYPE_MAP, TYPE_ARRAY} ==> r[|inner.kind|..] == ":" + inner.reference
  {
    if inner.kind == TYPE_OBJECT then inner.reference
    else if inner.kind == TYPE_MAP || inner.kind == TYPE_ARRAY then inner.kind + ":" + inner.reference
    else inner.kind
  }

  /**
   * resolvePropertyType: the kind of a property schema (`reference` read
   * as `object`). A map or array takes its reference and generic from its
   * value schema; any other schema becomes an object when it names a
   * target and a generic when it names a generic parameter.
   */
  function ResolvePropertyType(t: Members): (r: Result<ResolvedProperty>)
    decreases JObject(t)
    ensures r.Ok? ==> r.value.kind in PROPERTY_TYPES
    ensures r.Fail? ==> r.error in {UnresolvedPropertyType, MissingMapArraySchema, InvalidPropertyType}
    ensures EmptyString(PropertyTypeName(t)) ==> r == Fail(UnresolvedPropertyType)
    ensures r.Ok? && r.value.kind != TYPE_MAP && r.value.kind != TYPE_ARRAY ==>
              (r.value.generic != "" <==> r.value.kind == TYPE_GENERIC && !EmptyString(GetString(t, ["$generic", "name"])))
    ensures r.Ok? && (r.value.kind == TYPE_MAP || r.value.kind == TYPE_ARRAY) ==>
              GetObject(t, ["schema", "additionalProperties", "items"]).Some?
  {
    var typeName := PropertyTypeName(t);
    if EmptyString(typeName) then Fail(UnresolvedPropertyType)
    else
      var kind := if typeName.value == "reference" then TYPE_OBJECT else typeName.value;
      if kind == TYPE_MAP || kind == TYPE_ARRAY then
        match GetObject(t, ["schema", "additionalProperties", "items"])
        case None => Fail(MissingMapArraySchema)
        case Some(nested) =>
          assert exists i :: 0 <= i < |t| && t[i].1 == JObject(nested) && t[i] in t by {
            ObjectIsMember(t, ["schema", "additionalProperties", "items"], nested);
          }
          var inner :- ResolvePropertyType(nested);
          Ok(ResolvedProperty(kind, ValueReference(inner), inner.generic))
      else
        var target := GetString(t, ["$ref", "target"]);
        var name := GetString(t, ["$generic", "name"]);
        var withTarget := if !EmptyString(target) then TYPE_OBJECT else kind;
        var resolved := if !EmptyString(name) then TYPE_GENERIC else withTarget;
        if resolved !in PROPERTY_TYPES then Fail(InvalidPropertyType)
        else
          Ok(ResolvedProperty(resolved,
                              if !EmptyString(target) then target.value else "",
                              if !EmptyString(name) then name.value else ""))
  }

  /**
   * resolvePropertyType case by case: a map or array needs a value
   * schema; any other kind (`reference` read as `object`) becomes a
   * generic when it names a generic parameter, else an object when it
   * names a target, and keeps the target as its reference and the
   * parameter as its generic.
   */
  lemma ResolvePropertyTypeCases(t: Members)
    ensures !EmptyString(PropertyTypeName(t)) ==>
              var kind := if PropertyTypeName(t) == Some("reference") then TYPE_OBJECT else PropertyTypeName(t).value;
              kind in {TYPE_MAP, TYPE_ARRAY} ==>
                (GetObject(t, ["schema", "additionalProperties", "items"]).None? ==> ResolvePropertyType(t) == Fail(MissingMapArraySchema)) &&
                (ResolvePropertyType(t).Ok? ==> ResolvePropertyType(t).value.kind == kind)
    ensures !EmptyString(PropertyTypeName(t)) ==>
              var kind := if PropertyTypeName(t) == Some("reference") then TYPE_OBJECT else PropertyTypeName(t).value;
              var target := GetString(t, ["$ref", "target"]);
              var name := GetString(t, ["$generic", "name"]);
              var resolved := if !EmptyString(name) then TYPE_GENERIC else if !EmptyString(target) then TYPE_OBJECT else kind;
              kind !in {TYPE_MAP, TYPE_ARRAY} ==>
                (ResolvePropertyType(t).Ok? <==> resolved in PROPERTY_TYPES) &&
                (ResolvePropertyType(t).Fail? ==> ResolvePropertyType(t).error == InvalidPropertyType) &&
                (ResolvePropertyType(t).Ok? ==>
                   ResolvePropertyType(t).value.kind == resolved &&
                   ResolvePropertyType(t).value.reference == (if !EmptyString(target) then target.value else "") &&
                   ResolvePropertyType(t).value.generic == (if !EmptyString(name) then name.value else ""))
  {
  }

  /**
   * A map or array property takes its reference from its value schema (an
   * object by its target, a nested collection as `kind:reference`, any
   * other value by its kind) and carries the value schema's generic up.
   */
  lemma ResolvePropertyTypeCollection(t: Members, nested: Members)
    requires !EmptyString(PropertyTypeName(t)) && PropertyTypeName(t).value in {TYPE_MAP, TYPE_ARRAY}
    requires GetObject(t, ["schema", "additionalProperties", "items"]) == Some(nested)
    ensures ResolvePropertyType(t).Ok? <==> ResolvePropertyType(nested).Ok?
    ensures ResolvePropertyType(t).Ok? ==>
              ResolvePropertyType(t).value ==
                ResolvedProperty(PropertyTypeName(t).value, ValueReference(ResolvePropertyType(nested).value),
                                 ResolvePropertyType(nested).value.generic)
  {
  }

  /** A by-reference string handed back as a nullable field: set only when not empty. */
  function NonEmpty(s: string): (r: Option<string>)
    ensures r.Some? <==> !EmptyString(Some(s))
    ensures r.Some? ==> r.value == s
  {
    if EmptyString(Some(s)) then None else Some(s)
  }

  /**
   * parsePropertyType: a property named `name` whose kind, reference and
   * generic come from resolvePropertyType and whose template, description,
   * format and deprecation come from the keywords of the same name.
   */
  function ParsePropertyType(name: string, property: Json): (r: Result<PropertyData>)
    ensures r.Ok? ==> property.JObject? && r.value.name == Some(name)
    ensures r.Ok? ==> r.value.kind.Some? && r.value.kind.value in PROPERTY_TYPES
    ensures r.Ok? ==> (r.value.reference.Some? ==> !EmptyString(r.value.reference))
                      && (r.value.generic.Some? ==> !EmptyString(r.value.generic))
    ensures !property.JObject? ==> r == Fail(NotAnObject)
  {
    match property
    case JObject(m) =>
      var resolved :- ResolvePropertyType(m);
      Ok(PropertyData(
        name := Some(name),
        description := GetString(m, ["description"]),
        kind := Some(resolved.kind),
        format := GetString(m, ["format"]),
        deprecated := GetBoolean(m, ["deprecated"]),
        reference := NonEmpty(resolved.reference),
        generic := NonEmpty(resolved.generic),
        template := GetObject(m, ["template", "$template"])))
    case _ => Fail(NotAnObject)
  }

  /** The properties of a definition, each parsed under its key, in order; the first failure ends the loop. */
  function ParsedProperties(props: Members): (r: Result<seq<PropertyData>>)
    ensures r.Ok? ==> |r.value| == |props|
  {
    if props == [] then Ok([])
    else
      var init :- ParsedProperties(props[..|props| - 1]);
      var last := props[|props| - 1];
      var p :- ParsePropertyType(last.0, last.1);
      Ok(init + [p])
  }

  /** The properties loop parses each property under its own key: the i-th result is the i-th member parsed. */
  lemma {:induction false} ParsedPropertiesEach(props: Members)
    requires ParsedProperties(props).Ok?
    ensures forall i :: 0 <= i < |props| ==>
              ParsePropertyType(props[i].0, props[i].1) == Ok(ParsedProperties(props).value[i])
  {
    if props != [] {
      var init := props[..|props| - 1];
      ParsedPropertiesEach(init);
      forall i | 0 <= i < |props| - 1
        ensures ParsePropertyType(props[i].0, props[i].1) == Ok(ParsedProperties(props).value[i])
      {
        assert init[i] == props[i];
      }
    }
  }

  /** Once a prefix of the properties fails, the whole list fails the same way. */
  lemma {:induction false} ParsedPropertiesFails(props: Members, i: nat)
    requires i <= |props| && ParsedProperties(props[..i]).Fail?
    ensures ParsedProperties(props) == ParsedProperties(props[..i])
    decreases |props| - i
  {
    if i < |props| {
      assert props[..i + 1][..i] == props[..i];
      ParsedPropertiesFails(props, i + 1);
    } else {
      assert props[..i] == props;
    }
  }

  /**
   * The parent a definition extends and the template it binds: the
   * `parent`/`$extends` string, overridden by a parent object's `target`
   * (with that object's template); a parent object next to a string named
   * by `$ref`/`$extends`/`extends` is replaced by a reference to that name,
   * which has no template.
   */
  function DefinitionParent(t: Members): (r: (Option<string>, Option<Members>))
    ensures r.1.Some? ==> r.0.Some?
    ensures GetObject(t, ["parent"]).None? ==> r == (NonEmpty(GetString(t, ["parent", "$extends"]).GetOr("")), None)
    ensures GetObject(t, ["parent"]).Some? && !EmptyString(GetString(t, ["parent", "$ref", "$extends", "extends"])) ==>
              r == (GetString(t, ["parent", "$ref", "$extends", "extends"]), None)
    ensures GetObject(t, ["parent"]).Some? && EmptyString(GetString(t, ["parent", "$ref", "$extends", "extends"])) ==>
              var obj := GetObject(t, ["parent"]).value;
              (StringEntry(obj, "target").Some? ==>
                 r == (StringEntry(obj, "target"), GetObject(obj, ["template", "$template"]))) &&
              (StringEntry(obj, "target").None? ==> r == (NonEmpty(GetString(t, ["parent", "$extends"]).GetOr("")), None))
  {
    var named := GetString(t, ["parent", "$extends"]);
    var first := NonEmpty(named.GetOr(""));
    var parentString := GetString(t, ["parent", "$ref", "$extends", "extends"]);
    match GetObject(t, ["parent"])
    case Some(obj) =>
      if !EmptyString(parentString) then (parentString, None)
      else
        (match Get(obj, "target")
         case Some(JString(target)) => (Some(target), GetObject(obj, ["template", "$template"]))
         case _ => (first, None))
    case None => (first, None)
  }

  /** The properties object of a definition, parsed; none when it has no such object. */
  function DefinitionProperties(t: Members): (r: Result<seq<PropertyData>>)
    ensures GetObject(t, ["properties"]).None? ==> r == Ok([])
  {
    match GetObject(t, ["properties"])
    case Some(props) => ParsedProperties(props)
    case None => Ok([])
  }

  /** The reference of a map or array definition: the name its value schema resolves to. */
  function SchemaReference(t: Members): (r: Result<Option<string>>)
    ensures r.Ok? && r.value.Some? ==> !EmptyString(r.value)
    ensures GetObject(t, ["schema", "additionalProperties", "items"]).None? ==> r == Ok(None)
  {
    match GetObject(t, ["schema", "additionalProperties", "items"])
    case Some(schema) =>
      var resolved :- ResolveType(schema);
      Ok(Some(resolved.name))
    case None => Ok(None)
  }

  /**
   * parseDefinitionType as a value: the definition named `name`, of the
   * resolved kind, with its description, base flag, parent and template,
   * discriminator, mapping, properties and value reference.
   */
  function ParsedDefinition(name: string, t: Members): (r: Result<TypeModel.TypeData>)
    ensures r.Ok? ==> r.value.name == Some(name) && r.value.kind.Some? && r.value.kind.value in DEFINITION_TYPES
    ensures r.Ok? ==> r.value.ref.None? && r.value.required.None?
    ensures r.Ok? ==> (r.value.template.Some? ==> r.value.parent.Some?)
    ensures r.Ok? ==> (r.value.discriminator.Some? ==> !EmptyString(r.value.discriminator))
  {
    var kind :- ResolveDefinitionType(t);
    var parent := DefinitionParent(t);
    var properties :- DefinitionProperties(t);
    var reference :- SchemaReference(t);
    var discriminator := GetString(t, ["discriminator"]);
    Ok(TypeModel.TypeData(
      name := Some(name),
      kind := Some(kind),
      description := GetString(t, ["description"]),
      parent := parent.0,
      ref := None,
      template := parent.1,
      required := None,
      properties := properties,
      base := GetBoolean(t, ["base"]),
      discriminator := NonEmpty(discriminator.GetOr("")),
      mapping := GetObject(t, ["mapping"]),
      reference := reference))
  }

  /**
   * parseDefinitionType: sets the fields of a fresh definition one by one
   * and parses its properties in a loop.
   */
  method ParseDefinitionType(name: string, t: Members) returns (r: Result<TypeModel.TypeData>)
    ensures r == ParsedDefinition(name, t)
  {
    var kind := ResolveDefinitionType(t);
    if kind.Fail? {
      return Fail(kind.error);
    }
    var result := TypeModel.EmptyType.(name := Some(name), kind := Some(kind.value));
    var description := GetString(t, ["description"]);
    if description.Some? {
      result := result.(description := description);
    }
    var base := GetBoolean(t, ["base"]);
    if base.Some? {
      result := result.(base := base);
    }
    var parent := DefinitionParent(t);
    result := result.(parent := parent.0, template := parent.1);
    var discriminator := GetString(t, ["discriminator"]);
    if !EmptyString(discriminator) {
      result := result.(discriminator := discriminator);
    }
    var mapping := GetObject(t, ["mapping"]);
    if mapping.Some? {
      result := result.(mapping := mapping);
    }
    var properties := GetObject(t, ["properties"]);
    if properties.Some? {
      var parsed := ParseProperties(properties.value);
      if parsed.Fail? {
        return Fail(parsed.error);
      }
      result := result.(properties := parsed.value);
    }
    var reference := SchemaReference(t);
    if reference.Fail? {
      return Fail(reference.error);
    }
    result := result.(reference := reference.value);
    return Ok(result);
  }

  /** The loop of parseDefinitionType over the properties object. */
  method ParseProperties(props: Members) returns (r: Result<seq<PropertyData>>)
    ensures r == ParsedProperties(props)
  {
    var parsed: seq<PropertyData> := [];
    var i := 0;
    while i < |props|
      invariant 0 <= i <= |props|
      invariant ParsedProperties(props[..i]) == Ok(parsed)
    {
      assert props[..i + 1][..i] == props[..i];
      var property := ParsePropertyType(props[i].0, props[i].1);
      if property.Fail? {
        ParsedPropertiesFails(props, i + 1);
        return Fail(property.error);
      }
      parsed := parsed + [property.value];
      i := i + 1;
    }
    assert props[..i] == props;
    return Ok(parsed);
  }

  /** The shape parseArgument reports for an argument described by a content type. */
  const SHAPE_MIME: string := "mime"

  /**
   * parseArgument: an argument named `name` located by its `in` string and
   * typed by its schema (with the schema's shape) or else by its content
   * type (with the `mime` shape).
   */
  function ParseArgument(name: string, argument: Json): (r: Result<(ArgumentData, Option<string>)>)
    ensures !argument.JObject? ==> r == Fail(NotAnObject)
    ensures argument.JObject? && !HasKindAt(argument.members, "in", StringKind) ==> r == Fail(ArgumentInNotString)
    ensures r.Ok? ==> argument.JObject? && r.value.0.name == Some(name) &&
                      r.value.0.location == StringEntry(argument.members, "in") && r.value.0.location.Some? &&
                      r.value.0.kind.Some?
    ensures r.Ok? ==> (r.value.1 == Some(SHAPE_MIME) <==> !HasKindAt(argument.members, "schema", ObjectKind))
    ensures r.Ok? ==> CollectionShape(r.value.1) || r.value.1 == Some(SHAPE_MIME)
  {
    match argument
    case JObject(m) =>
      (match Get(m, "in")
       case Some(JString(location)) =>
         (match Get(m, "schema")
          case Some(JObject(schema)) =>
            var resolved :- ResolveType(schema);
            Ok((ArgumentData(Some(name), Some(location), Some(resolved.name)), resolved.shape))
          case _ =>
            (match Get(m, "contentType")
             case Some(JString(contentType)) =>
               Ok((ArgumentData(Some(name), Some(location), Some(contentType)), Some(SHAPE_MIME)))
             case _ => Fail(ArgumentSchemaMissing)))
       case _ => Fail(ArgumentInNotString))
    case _ => Fail(NotAnObject)
  }

  /**
   * parseArgument case by case: an argument with neither a schema object
   * nor a content type string fails; a schema object gives the type and
   * shape it resolves to, else the content type is the type.
   */
  lemma ParseArgumentCases(name: string, argument: Json)
    ensures argument.JObject? && HasKindAt(argument.members, "in", StringKind) &&
            ObjectEntry(argument.members, "schema").None? && StringEntry(argument.members, "contentType").None? ==>
              ParseArgument(name, argument) == Fail(ArgumentSchemaMissing)
    ensures argument.JObject? && HasKindAt(argument.members, "in", StringKind) &&
            ObjectEntry(argument.members, "schema").Some? ==>
              var resolved := ResolveType(ObjectEntry(argument.members, "schema").value);
              (ParseArgument(name, argument).Ok? <==> resolved.Ok?) &&
              (ParseArgument(name, argument).Ok? ==> ParseArgument(name, argument).value.0.kind == Some(resolved.value.name) && ParseArgument(name, argument).value.1 == resolved.value.shape)
    ensures ParseArgument(name, argument).Ok? && ObjectEntry(argument.members, "schema").None? ==>
              ParseArgument(name, argument).value.0.kind == StringEntry(argument.members, "contentType")
  {
  }

  /** parseThrow: a response with its integer code and the type and shape its schema resolves to. */
  function ParseThrow(throw: Json): (r: Result<ErrorData>)
    ensures !throw.JObject? ==> r == Fail(NotAnObject)
    ensures throw.JObject? && IntEntry(throw.members, "code").None? ==> r == Fail(ThrowCodeNotInteger)
    ensures r.Ok? ==> throw.JObject? && r.value.code == IntEntry(throw.members, "code") && r.value.code.Some?
    ensures r.Ok? ==> r.value.kind.Some? && !EmptyString(r.value.kind) && CollectionShape(r.value.typeShape)
  {
    match throw
    case JObject(m) =>
      (match Get(m, "code")
       case Some(JInt(code)) =>
         (match Get(m, "schema")
          case Some(JObject(schema)) =>
            var resolved :- ResolveType(schema);
            Ok(ErrorData(Some(code), Some(resolved.name), resolved.shape))
          case _ => Fail(ThrowSchemaMissing))
       case _ => Fail(ThrowCodeNotInteger))
    case _ => Fail(NotAnObject)
  }

  /**
   * parseThrow case by case: a throw with an integer code needs a schema
   * object, and takes the type and shape that schema resolves to.
   */
  lemma ParseThrowCases(throw: Json)
    ensures throw.JObject? && IntEntry(throw.members, "code").Some? && ObjectEntry(throw.members, "schema").None? ==>
              ParseThrow(throw) == Fail(ThrowSchemaMissing)
    ensures throw.JObject? && IntEntry(throw.members, "code").Some? && ObjectEntry(throw.members, "schema").Some? ==>
              var resolved := ResolveType(ObjectEntry(throw.members, "schema").value);
              (ParseThrow(throw).Ok? <==> resolved.Ok?) &&
              (ParseThrow(throw).Ok? ==> ParseThrow(throw).value.kind == Some(resolved.value.name) && ParseThrow(throw).value.typeShape == resolved.value.shape)
  {
  }

  /** What the arguments loop of parseOperation collects: the plain arguments, and the payload taken from a body argument. */
  datatype ArgumentsState = ArgumentsState(arguments: seq<ArgumentData>, payload: Option<string>, payloadShape: Option<string>)

  /**
   * The arguments loop: a body argument becomes the payload (a later one
   * replacing an earlier one), every other argument is kept in order.
   */
  function ParsedArguments(args: Members): (r: Result<ArgumentsState>)
    ensures r.Ok? ==> |r.value.arguments| <= |args|
    ensures r.Ok? ==> forall a :: a in r.value.arguments ==> !a.IsBody() && a.location.Some? && a.kind.Some?
    ensures r.Ok? && r.value.payload.None? ==> r.value.payloadShape.None?
    ensures r.Ok? && |args| > 0 && ParseArgument(args[|args| - 1].0, args[|args| - 1].1).Ok? ==>
              var last := ParseArgument(args[|args| - 1].0, args[|args| - 1].1).value;
              last.0.IsBody() ==> r.value.payload == last.0.kind && r.value.payloadShape == last.1
  {
    if args == [] then Ok(ArgumentsState([], None, None))
    else
      var state :- ParsedArguments(args[..|args| - 1]);
      var last := args[|args| - 1];
      var parsed :- ParseArgument(last.0, last.1);
      if parsed.0.IsBody() then Ok(state.(payload := parsed.0.kind, payloadShape := parsed.1))
      else Ok(state.(arguments := state.arguments + [parsed.0]))
  }

  /** The arguments the loop keeps: every entry that parses as a non-body argument, in order. */
  function KeptArguments(args: Members): (r: seq<ArgumentData>)
    ensures |r| <= |args|
    ensures forall a :: a in r ==> !a.IsBody()
  {
    if args == [] then []
    else
      var init := KeptArguments(args[..|args| - 1]);
      var parsed := ParseArgument(args[|args| - 1].0, args[|args| - 1].1);
      if parsed.Ok? && !parsed.value.0.IsBody() then init + [parsed.value.0] else init
  }

  /** The last value `f` gives for an element of `xs`, skipping the elements it gives none for. */
  function LastSome<T, U>(xs: seq<T>, f: T -> Option<U>): Option<U> {
    if xs == [] then None
    else if f(xs[|xs| - 1]).Some? then f(xs[|xs| - 1])
    else LastSome(xs[..|xs| - 1], f)
  }

  /**
   * LastSome is the value of the element no later element overrides: none
   * exactly when `f` gives none everywhere, and otherwise `f` of an element
   * after which `f` gives none.
   */
  lemma {:induction false} LastSomeIsLast<T, U>(xs: seq<T>, f: T -> Option<U>)
    ensures LastSome(xs, f).None? <==> forall i :: 0 <= i < |xs| ==> f(xs[i]).None?
    ensures LastSome(xs, f).Some? ==>
              exists i :: 0 <= i < |xs| && f(xs[i]) == LastSome(xs, f) && forall j :: i < j < |xs| ==> f(xs[j]).None?
  {
    if xs != [] {
      var init := xs[..|xs| - 1];
      LastSomeIsLast(init, f);
      assert forall i :: 0 <= i < |init| ==> init[i] == xs[i];
      if f(xs[|xs| - 1]).None? && LastSome(init, f).Some? {
        var i :| 0 <= i < |init| && f(init[i]) == LastSome(init, f) && forall j :: i < j < |init| ==> f(init[j]).None?;
        assert f(xs[i]) == LastSome(xs, f);
      }
    }
  }

  /** An entry that parses as a body argument gives it with its shape; any other entry gives none. */
  function BodyEntry(entry: (string, Json)): (r: Option<(ArgumentData, Option<string>)>)
    ensures r.Some? <==> ParseArgument(entry.0, entry.1).Ok? && ParseArgument(entry.0, entry.1).value.0.IsBody()
    ensures r.Some? ==> r.value == ParseArgument(entry.0, entry.1).value
  {
    var parsed := ParseArgument(entry.0, entry.1);
    if parsed.Ok? && parsed.value.0.IsBody() then Some(parsed.value) else None
  }

  /**
   * What the arguments loop collects, wherever the body arguments sit: the
   * kept arguments are the non-body ones in order, and the payload and its
   * shape are those of the last body argument (see LastSomeIsLast), or none
   * when there is none.
   */
  lemma {:induction false} ParsedArgumentsLastBody(args: Members)
    requires ParsedArguments(args).Ok?
    ensures ParsedArguments(args).value.arguments == KeptArguments(args)
    ensures LastSome(args, BodyEntry).None? ==>
              ParsedArguments(args).value.payload.None? && ParsedArguments(args).value.payloadShape.None?
    ensures LastSome(args, BodyEntry).Some? ==>
              ParsedArguments(args).value.payload == LastSome(args, BodyEntry).value.0.kind &&
              ParsedArguments(args).value.payloadShape == LastSome(args, BodyEntry).value.1
  {
    if args != [] {
      ParsedArgumentsLast(args);
      ParsedArgumentsLastBody(args[..|args| - 1]);
    }
  }

  /** The arguments loop's last step: the entries before the last parse, and the last one is either the payload or kept. */
  lemma ParsedArgumentsLast(args: Members)
    requires args != [] && ParsedArguments(args).Ok?
    ensures ParsedArguments(args[..|args| - 1]).Ok? && ParseArgument(args[|args| - 1].0, args[|args| - 1].1).Ok?
    ensures var state := ParsedArguments(args[..|args| - 1]).value;
            var last := ParseArgument(args[|args| - 1].0, args[|args| - 1].1).value;
            ParsedArguments(args).value ==
              if last.0.IsBody() then state.(payload := last.0.kind, payloadShape := last.1)
              else state.(arguments := state.arguments + [last.0])
    ensures KeptArguments(args) ==
              var last := ParseArgument(args[|args| - 1].0, args[|args| - 1].1).value;
              if last.0.IsBody() then KeptArguments(args[..|args| - 1]) else KeptArguments(args[..|args| - 1]) + [last.0]
  {
    assert ParsedArguments(args[..|args| - 1]).Ok?;
  }

  lemma {:induction false} ParsedArgumentsFails(args: Members, i: nat)
    requires i <= |args| && ParsedArguments(args[..i]).Fail?
    ensures ParsedArguments(args) == ParsedArguments(args[..i])
    decreases |args| - i
  {
    if i < |args| {
      assert args[..i + 1][..i] == args[..i];
      ParsedArgumentsFails(args, i + 1);
    } else {
      assert args[..i] == args;
    }
  }

  /** The throws loop: each entry parsed in order; the first failure ends the loop. */
  function ParsedThrows(items: seq<Json>): (r: Result<seq<ErrorData>>)
    ensures r.Ok? ==> |r.value| == |items|
  {
    if items == [] then Ok([])
    else
      var init :- ParsedThrows(items[..|items| - 1]);
      var e :- ParseThrow(items[|items| - 1]);
      Ok(init + [e])
  }

  /** The throws of one more entry, parsed, are those of the entries before it and then that entry's, or that entry's failure. */
  lemma ParsedThrowsStep(items: seq<Json>, i: int, throws: seq<ErrorData>)
    requires 0 <= i < |items| && ParsedThrows(items[..i]) == Ok(throws)
    ensures ParseThrow(items[i]).Ok? ==> ParsedThrows(items[..i + 1]) == Ok(throws + [ParseThrow(items[i]).value])
    ensures ParseThrow(items[i]).Fail? ==> ParsedThrows(items[..i + 1]) == Fail(ParseThrow(items[i]).error)
  {
    assert items[..i + 1][..i] == items[..i];
  }

  /** The throws loop parses each entry on its own: the i-th result is the i-th entry parsed. */
  lemma {:induction false} ParsedThrowsEach(items: seq<Json>)
    requires ParsedThrows(items).Ok?
    ensures forall i :: 0 <= i < |items| ==> ParseThrow(items[i]) == Ok(ParsedThrows(items).value[i])
  {
    if items != [] {
      var init := items[..|items| - 1];
      ParsedThrowsEach(init);
      forall i | 0 <= i < |items| - 1 ensures ParseThrow(items[i]) == Ok(ParsedThrows(items).value[i]) {
        assert init[i] == items[i];
      }
    }
  }

  lemma {:induction false} ParsedThrowsFails(items: seq<Json>, i: nat)
    requires i <= |items| && ParsedThrows(items[..i]).Fail?
    ensures ParsedThrows(items) == ParsedThrows(items[..i])
    decreases |items| - i
  {
    if i < |items| {
      assert items[..i + 1][..i] == items[..i];
      ParsedThrowsFails(items, i + 1);
    } else {
      assert items[..i] == items;
    }
  }

  /** The success response of an operation: its code, its type and the type's shape. */
  datatype ReturnState = ReturnState(httpCode: Option<int>, returnType: Option<string>, returnShape: Option<string>)

  /**
   * The `return` object of an operation: an integer code is kept; a 204
   * response has no type; otherwise the schema gives type and shape, or
   * else the content type gives the type with the `mime` shape.
   */
  function ParsedReturn(op: Members): (r: Result<ReturnState>)
    ensures r.Ok? && r.value.httpCode == Some(204) ==> r.value.returnType.None? && r.value.returnShape.None?
    ensures r.Ok? && r.value.returnType.None? ==> r.value.returnShape.None?
    ensures r.Ok? ==> CollectionShape(r.value.returnShape) || r.value.returnShape == Some(SHAPE_MIME)
    ensures r.Fail? ==> r.error == InvalidSchema
  {
    match Get(op, "return")
    case Some(JObject(ret)) =>
      var code := IntEntry(ret, "code");
      if code == Some(204) then Ok(ReturnState(code, None, None))
      else
        (match Get(ret, "schema")
         case Some(JObject(schema)) =>
           var resolved :- ResolveType(schema);
           Ok(ReturnState(code, Some(resolved.name), resolved.shape))
         case _ =>
           (match Get(ret, "contentType")
            case Some(JString(contentType)) => Ok(ReturnState(code, Some(contentType), Some(SHAPE_MIME)))
            case _ => Ok(ReturnState(code, None, None))))
    case _ => Ok(ReturnState(None, None, None))
  }

  /**
   * The return of an operation case by case: the code is the integer
   * under `code`; below a non-204 code, a schema object gives the type
   * and shape it resolves to, else a content type string gives the type
   * with the `mime` shape, else there is no type.
   */
  lemma ParsedReturnCases(op: Members)
    ensures ParsedReturn(op).Ok? ==> ParsedReturn(op).value.httpCode == (if ObjectEntry(op, "return").Some? then IntEntry(ObjectEntry(op, "return").value, "code") else None)
    ensures ObjectEntry(op, "return").Some? && IntEntry(ObjectEntry(op, "return").value, "code") != Some(204) ==>
              var ret := ObjectEntry(op, "return").value;
              (ObjectEntry(ret, "schema").Some? ==>
                 var resolved := ResolveType(ObjectEntry(ret, "schema").value);
                 (ParsedReturn(op).Ok? <==> resolved.Ok?) &&
                 (ParsedReturn(op).Ok? ==> ParsedReturn(op).value.returnType == Some(resolved.value.name) && ParsedReturn(op).value.returnShape == resolved.value.shape)) &&
              (ObjectEntry(ret, "schema").None? && StringEntry(ret, "contentType").Some? ==>
                 ParsedReturn(op).Ok? && ParsedReturn(op).value.returnType == StringEntry(ret, "contentType") && ParsedReturn(op).value.returnShape == Some(SHAPE_MIME)) &&
              (ObjectEntry(ret, "schema").None? && StringEntry(ret, "contentType").None? ==>
                 ParsedReturn(op).Ok? && ParsedReturn(op).value.returnType.None? && ParsedReturn(op).value.returnShape.None?)
  {
  }

  /** The arguments object of an operation, parsed; nothing when it has none. */
  function OperationArguments(op: Members): Result<ArgumentsState> {
    match Get(op, "arguments")
    case Some(JObject(args)) => ParsedArguments(args)
    case _ => Ok(ArgumentsState([], None, None))
  }

  /** The throws list of an operation, parsed; nothing when it has none. */
  function OperationThrows(op: Members): Result<seq<ErrorData>> {
    match Get(op, "throws")
    case Some(JArray(items)) => ParsedThrows(items)
    case _ => Ok([])
  }

  /**
   * parseOperation as a value: the operation named `name` with its method,
   * path, arguments and payload, throws, return, description, stability,
   * security, authorization and tags.
   */
  function ParsedOperation(name: string, op: Members): (r: Result<OperationData>)
    ensures r.Ok? ==> r.value.name == name
    ensures r.Ok? ==> forall a :: a in r.value.arguments ==> !a.IsBody()
    ensures r.Ok? && r.value.payload.None? ==> r.value.payloadShape.None?
    ensures r.Ok? && r.value.httpCode == Some(204) ==> r.value.returnType.None?
  {
    var args :- OperationArguments(op);
    var throws :- OperationThrows(op);
    var ret :- ParsedReturn(op);
    Ok(OperationData(
      name := name,
      description := StringEntry(op, "description"),
      httpMethod := StringEntry(op, "method"),
      httpPath := StringEntry(op, "path"),
      arguments := args.arguments,
      payload := args.payload,
      payloadShape := args.payloadShape,
      throws := throws,
      returnType := ret.returnType,
      returnShape := ret.returnShape,
      httpCode := ret.httpCode,
      stability := IntEntry(op, "stability"),
      security := GetList(op, "security"),
      authorization := BoolEntry(op, "authorization"),
      tags := GetList(op, "tags")))
  }

  /** The arguments loop of parseOperation. */
  method ParseArguments(args: Members) returns (r: Result<ArgumentsState>)
    ensures r == ParsedArguments(args)
  {
    var arguments: seq<ArgumentData> := [];
    var payload: Option<string> := None;
    var payloadShape: Option<string> := None;
    var i := 0;
    while i < |args|
      invariant 0 <= i <= |args|
      invariant ParsedArguments(args[..i]) == Ok(ArgumentsState(arguments, payload, payloadShape))
    {
      assert args[..i + 1][..i] == args[..i];
      var argument := ParseArgument(args[i].0, args[i].1);
      if argument.Fail? {
        ParsedArgumentsFails(args, i + 1);
        return Fail(argument.error);
      }
      if argument.value.0.IsBody() {
        payload := argument.value.0.kind;
        payloadShape := argument.value.1;
      } else {
        arguments := arguments + [argument.value.0];
      }
      i := i + 1;
    }
    assert args[..i] == args;
    return Ok(ArgumentsState(arguments, payload, payloadShape));
  }

  /** The throws loop of parseOperation. */
  method ParseThrows(items: seq<Json>) returns (r: Result<seq<ErrorData>>)
    ensures r == ParsedThrows(items)
  {
    var throws: seq<ErrorData> := [];
    var i := 0;
    while i < |items|
      invariant 0 <= i <= |items|
      invariant ParsedThrows(items[..i]) == Ok(throws)
    {
      var e := ParseThrow(items[i]);
      ParsedThrowsStep(items, i, throws);
      if e.Fail? {
        ParsedThrowsFails(items, i + 1);
        return Fail(e.error);
      }
      throws := throws + [e.value];
      i := i + 1;
    }
    assert items[..i] == items;
    return Ok(throws);
  }

  /** parseOperation: fills a fresh operation field by field. */
  method ParseOperation(name: string, op: Members) returns (r: Result<OperationData>)
    ensures r == ParsedOperation(name, op)
  {
    var result := EmptyOperation(name);
    result := result.(httpMethod := StringEntry(op, "method"), httpPath := StringEntry(op, "path"));
    var args: Result<ArgumentsState> := Ok(ArgumentsState([], None, None));
    if Get(op, "arguments").Some? && Get(op, "arguments").value.JObject? {
      args := ParseArguments(Get(op, "arguments").value.members);
      if args.Fail? {
        return Fail(args.error);
      }
      result := result.(arguments := args.value.arguments);
    }
    if args.value.payload.Some? {
      result := result.(payload := args.value.payload);
      if args.value.payloadShape.Some? {
        result := result.(payloadShape := args.value.payloadShape);
      }
    }
    var throws: Result<seq<ErrorData>> := Ok([]);
    if Get(op, "throws").Some? && Get(op, "throws").value.JArray? {
      throws := ParseThrows(Get(op, "throws").value.items);
      if throws.Fail? {
        return Fail(throws.error);
      }
      result := result.(throws := throws.value);
    }
    var ret := ParsedReturn(op);
    if ret.Fail? {
      return Fail(ret.error);
    }
    result := result.(httpCode := ret.value.httpCode, returnType := ret.value.returnType,
                      returnShape := ret.value.returnShape);
    result := result.(description := StringEntry(op, "description"), stability := IntEntry(op, "stability"),
                      security := GetList(op, "security"), authorization := BoolEntry(op, "authorization"),
                      tags := GetList(op, "tags"));
    return Ok(result);
  }

  /**
   * What the schema manager yields for an import URL: the name and the
   * members of each definition it declares, in order, or nothing when the
   * schema cannot be loaded.
   */
  type Resolver = string -> Option<seq<(string, Members)>>

  /** The definitions of an imported schema, each parsed under its name, in order. */
  function ParsedImportTypes(defs: seq<(string, Members)>): (r: Result<seq<TypeModel.TypeData>>)
    ensures r.Ok? ==> |r.value| == |defs|
  {
    if defs == [] then Ok([])
    else
      var init :- ParsedImportTypes(defs[..|defs| - 1]);
      var last := defs[|defs| - 1];
      var t :- ParsedDefinition(last.0, last.1);
      Ok(init + [t])
  }

  /** The import loop parses each definition on its own: the i-th result is the i-th definition parsed under its name. */
  lemma {:induction false} ParsedImportTypesEach(defs: seq<(string, Members)>)
    requires ParsedImportTypes(defs).Ok?
    ensures forall i :: 0 <= i < |defs| ==> ParsedDefinition(defs[i].0, defs[i].1) == Ok(ParsedImportTypes(defs).value[i])
  {
    if defs != [] {
      var init := defs[..|defs| - 1];
      ParsedImportTypesEach(init);
      forall i | 0 <= i < |defs| - 1 ensures ParsedDefinition(defs[i].0, defs[i].1) == Ok(ParsedImportTypes(defs).value[i]) {
        assert init[i] == defs[i];
      }
    }
  }

  lemma {:induction false} ParsedImportTypesFails(defs: seq<(string, Members)>, i: nat)
    requires i <= |defs| && ParsedImportTypes(defs[..i]).Fail?
    ensures ParsedImportTypes(defs) == ParsedImportTypes(defs[..i])
    decreases |defs| - i
  {
    if i < |defs| {
      assert defs[..i + 1][..i] == defs[..i];
      ParsedImportTypesFails(defs, i + 1);
    } else {
      assert defs[..i] == defs;
    }
  }

  /** parseImport as a value: the import `alias` of `url` with the definitions of the schema found there. */
  function ParsedImport(alias: string, url: string, resolve: Resolver): (r: Result<ImportData>)
    ensures resolve(url).None? ==> r == Fail(ImportUnresolved(alias))
    ensures r.Ok? ==> r.value.alias == Some(alias) && r.value.url == Some(url) && r.value.types.Some?
    ensures r.Ok? ==> |r.value.types.value| == |resolve(url).value|
    ensures r.Ok? ==> ParsedImportTypes(resolve(url).value) == Ok(r.value.types.value)
    ensures resolve(url).Some? && ParsedImportTypes(resolve(url).value).Fail? ==> r == Fail(ParsedImportTypes(resolve(url).value).error)
  {
    match resolve(url)
    case None => Fail(ImportUnresolved(alias))
    case Some(defs) =>
      var types :- ParsedImportTypes(defs);
      Ok(ImportData(Some(alias), Some(url), Some(types)))
  }

  /** parseImport: loads the schema and parses each of its definitions in a loop. */
  method ParseImport(alias: string, url: string, resolve: Resolver) returns (r: Result<ImportData>)
    ensures r == ParsedImport(alias, url, resolve)
  {
    var schema := resolve(url);
    if schema.None? {
      return Fail(ImportUnresolved(alias));
    }
    var defs := schema.value;
    var types: seq<TypeModel.TypeData> := [];
    var i := 0;
    while i < |defs|
      invariant 0 <= i <= |defs|
      invariant ParsedImportTypes(defs[..i]) == Ok(types)
    {
      assert defs[..i + 1][..i] == defs[..i];
      var t := ParseDefinitionType(defs[i].0, defs[i].1);
      if t.Fail? {
        ParsedImportTypesFails(defs, i + 1);
        return Fail(t.error);
      }
      types := types + [t.value];
      i := i + 1;
    }
    assert defs[..i] == defs;
    return Ok(ImportData(Some(alias), Some(url), Some(types)));
  }

  /**
   * The shape of the operations and definitions loops: each object-valued
   * entry is parsed under its key and appended, other entries are
   * skipped, and the first failure ends the loop.
   */
  function Gathered<T>(entries: Members, parse: (string, Members) -> Result<T>): (r: Result<seq<T>>)
    ensures r.Ok? ==> |r.value| <= |entries|
  {
    if entries == [] then Ok([])
    else
      var init :- Gathered(entries[..|entries| - 1], parse);
      var last := entries[|entries| - 1];
      match last.1
      case JObject(m) =>
        var x :- parse(last.0, m);
        Ok(init + [x])
      case _ => Ok(init)
  }

  /** Every object-valued entry is parsed into the result. */
  lemma {:induction false} GatheredEntries<T>(entries: Members, parse: (string, Members) -> Result<T>)
    requires Gathered(entries, parse).Ok?
    ensures forall i :: 0 <= i < |entries| && entries[i].1.JObject? ==>
              parse(entries[i].0, entries[i].1.members).Ok? &&
              parse(entries[i].0, entries[i].1.members).value in Gathered(entries, parse).value
  {
    if entries != [] {
      var init := entries[..|entries| - 1];
      GatheredEntries(init, parse);
      var before := Gathered(init, parse).value;
      var r := Gathered(entries, parse).value;
      forall i | 0 <= i < |entries| && entries[i].1.JObject?
        ensures parse(entries[i].0, entries[i].1.members).Ok? && parse(entries[i].0, entries[i].1.members).value in r
      {
        if i < |init| {
          assert init[i] == entries[i];
          assert parse(entries[i].0, entries[i].1.members).value in before;
        }
      }
    }
  }

  /** Every element of the result is an object-valued entry, parsed. */
  lemma {:induction false} GatheredSources<T>(entries: Members, parse: (string, Members) -> Result<T>)
    requires Gathered(entries, parse).Ok?
    ensures forall x :: x in Gathered(entries, parse).value ==>
              exists i :: 0 <= i < |entries| && entries[i].1.JObject? && parse(entries[i].0, entries[i].1.members) == Ok(x)
  {
    if entries != [] {
      var init := entries[..|entries| - 1];
      GatheredSources(init, parse);
      var before := Gathered(init, parse).value;
      forall x | x in Gathered(entries, parse).value
        ensures exists i :: 0 <= i < |entries| && entries[i].1.JObject? && parse(entries[i].0, entries[i].1.members) == Ok(x)
      {
        if x in before {
          var i :| 0 <= i < |init| && init[i].1.JObject? && parse(init[i].0, init[i].1.members) == Ok(x);
          assert init[i] == entries[i];
        } else {
          var i := |entries| - 1;
          assert entries[i].1.JObject? && parse(entries[i].0, entries[i].1.members) == Ok(x);
        }
      }
    }
  }

  /** The import object of a document: each alias with a string URL is imported, in order; other entries are skipped. */
  function ParsedImports(imports: Members, resolve: Resolver): (r: Result<seq<ImportData>>)
    ensures r.Ok? ==> |r.value| <= |imports|
    ensures r.Ok? ==> forall i :: 0 <= i < |r.value| ==> r.value[i].alias.Some? && r.value[i].url.Some?
  {
    if imports == [] then Ok([])
    else
      var init :- ParsedImports(imports[..|imports| - 1], resolve);
      var last := imports[|imports| - 1];
      match last.1
      case JString(url) =>
        var i :- ParsedImport(last.0, url, resolve);
        Ok(init + [i])
      case _ => Ok(init)
  }

  /**
   * Every entry with a string URL is imported as its alias and that URL,
   * and every import comes from such an entry.
   */
  lemma {:induction false} ParsedImportsEach(imports: Members, resolve: Resolver)
    requires ParsedImports(imports, resolve).Ok?
    ensures forall i :: 0 <= i < |imports| && imports[i].1.JString? ==>
              ParsedImport(imports[i].0, imports[i].1.s, resolve).Ok? &&
              ParsedImport(imports[i].0, imports[i].1.s, resolve).value in ParsedImports(imports, resolve).value
    ensures forall x :: x in ParsedImports(imports, resolve).value ==>
              exists i :: 0 <= i < |imports| && imports[i].1.JString? && ParsedImport(imports[i].0, imports[i].1.s, resolve) == Ok(x)
  {
    if imports != [] {
      var init := imports[..|imports| - 1];
      ParsedImportsEach(init, resolve);
      assert forall i :: 0 <= i < |init| ==> init[i] == imports[i];
      var r := ParsedImports(imports, resolve).value;
      forall x | x in r
        ensures exists i :: 0 <= i < |imports| && imports[i].1.JString? && ParsedImport(imports[i].0, imports[i].1.s, resolve) == Ok(x)
      {
        if x !in ParsedImports(init, resolve).value {
          var i := |imports| - 1;
          assert imports[i].1.JString? && ParsedImport(imports[i].0, imports[i].1.s, resolve) == Ok(x);
        }
      }
    }
  }

  lemma {:induction false} ParsedImportsFails(imports: Members, resolve: Resolver, i: nat)
    requires i <= |imports| && ParsedImports(imports[..i], resolve).Fail?
    ensures ParsedImports(imports, resolve) == ParsedImports(imports[..i], resolve)
    decreases |imports| - i
  {
    if i < |imports| {
      assert imports[..i + 1][..i] == imports[..i];
      ParsedImportsFails(imports, resolve, i + 1);
    } else {
      assert imports[..i] == imports;
    }
  }

  /** The operations object of a document: each object-valued entry parsed under its key, in order; other entries are skipped. */
  function ParsedOperations(ops: Members): (r: Result<seq<OperationData>>)
    ensures r.Ok? ==> |r.value| <= |ops|
    ensures r.Ok? ==> forall i :: 0 <= i < |r.value| ==> r.value[i].name in Keys(ops)
  {
    if ops == [] then Ok([])
    else
      var init :- ParsedOperations(ops[..|ops| - 1]);
      var last := ops[|ops| - 1];
      assert Keys(ops[..|ops| - 1]) + [last.0] == Keys(ops);
      match last.1
      case JObject(op) =>
        var o :- ParsedOperation(last.0, op);
        Ok(init + [o])
      case _ => Ok(init)
  }

  /** The operations loop is the gathering loop over parseOperation. */
  lemma {:induction false} ParsedOperationsGathered(ops: Members)
    ensures ParsedOperations(ops) == Gathered(ops, ParsedOperation)
  {
    if ops != [] {
      ParsedOperationsGathered(ops[..|ops| - 1]);
    }
  }

  /**
   * Every object-valued entry is parsed as the operation named by its
   * key, and every operation comes from such an entry.
   */
  lemma ParsedOperationsEach(ops: Members)
    requires ParsedOperations(ops).Ok?
    ensures forall i :: 0 <= i < |ops| && ops[i].1.JObject? ==>
              ParsedOperation(ops[i].0, ops[i].1.members).Ok? &&
              ParsedOperation(ops[i].0, ops[i].1.members).value in ParsedOperations(ops).value
    ensures forall x :: x in ParsedOperations(ops).value ==>
              exists i :: 0 <= i < |ops| && ops[i].1.JObject? && ParsedOperation(ops[i].0, ops[i].1.members) == Ok(x)
  {
    ParsedOperationsGathered(ops);
    GatheredEntries(ops, ParsedOperation);
    GatheredSources(ops, ParsedOperation);
  }

  lemma {:induction false} ParsedOperationsFails(ops: Members, i: nat)
    requires i <= |ops| && ParsedOperations(ops[..i]).Fail?
    ensures ParsedOperations(ops) == ParsedOperations(ops[..i])
    decreases |ops| - i
  {
    if i < |ops| {
      assert ops[..i + 1][..i] == ops[..i];
      ParsedOperationsFails(ops, i + 1);
    } else {
      assert ops[..i] == ops;
    }
  }

  /** What the definitions loop of parse collects: the definitions and the index of the root one. */
  datatype DefinitionsState = DefinitionsState(types: seq<TypeModel.TypeData>, root: Option<int>)

  /** One turn of the definitions loop: an object is parsed and appended, becoming the root when its key is `rootRef`. */
  function DefinitionStep(state: DefinitionsState, entry: (string, Json), rootRef: Option<string>): (r: Result<DefinitionsState>)
    ensures r.Ok? && entry.1.JObject? ==>
              |r.value.types| == |state.types| + 1 && r.value.types[..|state.types|] == state.types &&
              r.value.types[|state.types|].name == Some(entry.0) &&
              r.value.root == if rootRef == Some(entry.0) then Some(|state.types|) else state.root
    ensures !entry.1.JObject? ==> r == Ok(state)
  {
    match entry.1
    case JObject(t) =>
      var root := if rootRef == Some(entry.0) then Some(|state.types|) else state.root;
      var parsed :- ParsedDefinition(entry.0, t);
      Ok(DefinitionsState(state.types + [parsed], root))
    case _ => Ok(state)
  }

  /**
   * The definitions object of a document: each object-valued entry parsed
   * under its key, in order, other entries skipped; the root is the index,
   * among the parsed definitions, of the last one named `rootRef`.
   */
  function ParsedDefinitions(defs: Members, rootRef: Option<string>): (r: Result<DefinitionsState>)
    ensures r.Ok? ==> |r.value.types| <= |defs|
  {
    if defs == [] then Ok(DefinitionsState([], None))
    else
      var state :- ParsedDefinitions(defs[..|defs| - 1], rootRef);
      DefinitionStep(state, defs[|defs| - 1], rootRef)
  }

  /** The definitions of one more entry are those of the entries before it, stepped by that entry. */
  lemma ParsedDefinitionsStep(defs: Members, rootRef: Option<string>, i: int, state: DefinitionsState)
    requires 0 <= i < |defs| && ParsedDefinitions(defs[..i], rootRef) == Ok(state)
    ensures ParsedDefinitions(defs[..i + 1], rootRef) == DefinitionStep(state, defs[i], rootRef)
  {
    assert defs[..i + 1][..i] == defs[..i];
  }

  /** The root index names a parsed definition called `rootRef`, the last one; with no root, none is called so. */
  lemma {:induction false} ParsedDefinitionsRoot(defs: Members, rootRef: Option<string>)
    requires ParsedDefinitions(defs, rootRef).Ok?
    ensures var s := ParsedDefinitions(defs, rootRef).value;
            s.root.Some? ==> 0 <= s.root.value < |s.types| && s.types[s.root.value].name == rootRef
    ensures var s := ParsedDefinitions(defs, rootRef).value;
            s.root.Some? ==> forall j :: s.root.value < j < |s.types| ==> s.types[j].name != rootRef
    ensures var s := ParsedDefinitions(defs, rootRef).value;
            s.root.None? ==> forall j :: 0 <= j < |s.types| ==> s.types[j].name != rootRef
  {
    if defs != [] {
      ParsedDefinitionsRoot(defs[..|defs| - 1], rootRef);
    }
  }

  /** The definitions the definitions loop collects are those of the gathering loop over parseDefinitionType. */
  lemma {:induction false} ParsedDefinitionsGathered(defs: Members, rootRef: Option<string>)
    ensures ParsedDefinitions(defs, rootRef).Ok? <==> Gathered(defs, ParsedDefinition).Ok?
    ensures ParsedDefinitions(defs, rootRef).Ok? ==>
              ParsedDefinitions(defs, rootRef).value.types == Gathered(defs, ParsedDefinition).value
  {
    if defs != [] {
      ParsedDefinitionsGathered(defs[..|defs| - 1], rootRef);
    }
  }

  /**
   * Every object-valued entry is parsed as the definition named by its
   * key, and every definition comes from such an entry.
   */
  lemma ParsedDefinitionsEach(defs: Members, rootRef: Option<string>)
    requires ParsedDefinitions(defs, rootRef).Ok?
    ensures forall i :: 0 <= i < |defs| && defs[i].1.JObject? ==>
              ParsedDefinition(defs[i].0, defs[i].1.members).Ok? &&
              ParsedDefinition(defs[i].0, defs[i].1.members).value in ParsedDefinitions(defs, rootRef).value.types
    ensures forall x :: x in ParsedDefinitions(defs, rootRef).value.types ==>
              exists i :: 0 <= i < |defs| && defs[i].1.JObject? && ParsedDefinition(defs[i].0, defs[i].1.members) == Ok(x)
  {
    ParsedDefinitionsGathered(defs, rootRef);
    GatheredEntries(defs, ParsedDefinition);
    GatheredSources(defs, ParsedDefinition);
  }

  lemma {:induction false} ParsedDefinitionsFails(defs: Members, rootRef: Option<string>, i: nat)
    requires i <= |defs| && ParsedDefinitions(defs[..i], rootRef).Fail?
    ensures ParsedDefinitions(defs, rootRef) == ParsedDefinitions(defs[..i], rootRef)
    decreases |defs| - i
  {
    if i < |defs| {
      assert defs[..i + 1][..i] == defs[..i];
      ParsedDefinitionsFails(defs, rootRef, i + 1);
    } else {
      assert defs[..i] == defs;
    }
  }

  /** The security object of a document, constructed from its members; none when it has no such object. */
  function DocumentSecurity(data: Members): Option<SecurityData> {
    match Get(data, "security")
    case Some(JObject(security)) => Some(SecurityFromArray(security))
    case _ => None
  }

  function DocumentImports(data: Members, resolve: Resolver): Result<seq<ImportData>> {
    match Get(data, "import")
    case Some(JObject(imports)) => ParsedImports(imports, resolve)
    case _ => Ok([])
  }

  function DocumentOperations(data: Members): Result<seq<OperationData>> {
    match Get(data, "operations")
    case Some(JObject(ops)) => ParsedOperations(ops)
    case _ => Ok([])
  }

  function DocumentDefinitions(data: Members): Result<DefinitionsState> {
    match Get(data, "definitions")
    case Some(JObject(defs)) => ParsedDefinitions(defs, GetString(data, ["root", "$ref"]))
    case _ => Ok(DefinitionsState([], None))
  }

  /**
   * parse as a value: the document with the base URL, security, imports,
   * operations and definitions of the specification, and the index of the
   * definition its `root` names.
   */
  function ParsedDocument(data: Members, resolve: Resolver): (r: Result<DocumentData>)
    ensures r.Ok? ==> r.value.baseUrl == StringEntry(data, "baseUrl")
    ensures r.Ok? ==> r.value.security == DocumentSecurity(data)
  {
    var imports :- DocumentImports(data, resolve);
    var operations :- DocumentOperations(data);
    var definitions :- DocumentDefinitions(data);
    Ok(DocumentData(imports, operations, definitions.types, definitions.root,
                    StringEntry(data, "baseUrl"), DocumentSecurity(data)))
  }

  /** The root of a parsed document is the index of a definition named by the `root` (or `$ref`) string. */
  lemma ParsedDocumentRoot(data: Members, resolve: Resolver)
    requires ParsedDocument(data, resolve).Ok? && ParsedDocument(data, resolve).value.root.Some?
    ensures var d := ParsedDocument(data, resolve).value;
            0 <= d.root.value < |d.types| && d.types[d.root.value].name == GetString(data, ["root", "$ref"])
  {
    ParsedDefinitionsRoot(Get(data, "definitions").value.members, GetString(data, ["root", "$ref"]));
  }

  /** The import loop of parse. */
  method ParseImports(imports: Members, resolve: Resolver) returns (r: Result<seq<ImportData>>)
    ensures r == ParsedImports(imports, resolve)
  {
    var result: seq<ImportData> := [];
    var i := 0;
    while i < |imports|
      invariant 0 <= i <= |imports|
      invariant ParsedImports(imports[..i], resolve) == Ok(result)
    {
      assert imports[..i + 1][..i] == imports[..i];
      if imports[i].1.JString? {
        var entry := ParseImport(imports[i].0, imports[i].1.s, resolve);
        if entry.Fail? {
          ParsedImportsFails(imports, resolve, i + 1);
          return Fail(entry.error);
        }
        result := result + [entry.value];
      }
      i := i + 1;
    }
    assert imports[..i] == imports;
    return Ok(result);
  }

  /** The operations loop of parse. */
  method ParseOperations(ops: Members) returns (r: Result<seq<OperationData>>)
    ensures r == ParsedOperations(ops)
  {
    var result: seq<OperationData> := [];
    var i := 0;
    while i < |ops|
      invariant 0 <= i <= |ops|
      invariant ParsedOperations(ops[..i]) == Ok(result)
    {
      assert ops[..i + 1][..i] == ops[..i];
      if ops[i].1.JObject? {
        var op := ParseOperation(ops[i].0, ops[i].1.members);
        if op.Fail? {
          ParsedOperationsFails(ops, i + 1);
          return Fail(op.error);
        }
        result := result + [op.value];
      }
      i := i + 1;
    }
    assert ops[..i] == ops;
    return Ok(result);
  }

  /** One object-valued entry of the definitions loop: the root index is taken when the key matches, then the type is parsed and appended. */
  method ParseDefinitionEntry(state: DefinitionsState, entry: (string, Json), rootRef: Option<string>) returns (r: Result<DefinitionsState>)
    requires entry.1.JObject?
    ensures r == DefinitionStep(state, entry, rootRef)
  {
    var root := state.root;
    if rootRef == Some(entry.0) {
      root := Some(|state.types|);
    }
    var t := ParseDefinitionType(entry.0, entry.1.members);
    if t.Fail? {
      return Fail(t.error);
    }
    return Ok(DefinitionsState(state.types + [t.value], root));
  }

  /** The definitions loop of parse, with its running index. */
  method ParseDefinitions(defs: Members, rootRef: Option<string>) returns (r: Result<DefinitionsState>)
    ensures r == ParsedDefinitions(defs, rootRef)
  {
    var types: seq<TypeModel.TypeData> := [];
    var root: Option<int> := None;
    var index := 0;
    var i := 0;
    while i < |defs|
      invariant 0 <= i <= |defs|
      invariant index == |types|
      invariant ParsedDefinitions(defs[..i], rootRef) == Ok(DefinitionsState(types, root))
    {
      ParsedDefinitionsStep(defs, rootRef, i, DefinitionsState(types, root));
      if defs[i].1.JObject? {
        var step := ParseDefinitionEntry(DefinitionsState(types, root), defs[i], rootRef);
        if step.Fail? {
          ParsedDefinitionsFails(defs, rootRef, i + 1);
          return Fail(step.error);
        }
        types, root := step.value.types, step.value.root;
        index := index + 1;
      }
      i := i + 1;
    }
    assert defs[..i] == defs;
    return Ok(DefinitionsState(types, root));
  }

  /** parse: reads the sections of the specification in turn. */
  method Parse(data: Members, resolve: Resolver) returns (r: Result<DocumentData>)
    ensures r == ParsedDocument(data, resolve)
  {
    var baseUrl := StringEntry(data, "baseUrl");
    var security := DocumentSecurity(data);
    var imports := DocumentImports(data, resolve);
    if Get(data, "import").Some? && Get(data, "import").value.JObject? {
      imports := ParseImports(Get(data, "import").value.members, resolve);
    }
    if imports.Fail? {
      return Fail(imports.error);
    }
    var operations := DocumentOperations(data);
    if Get(data, "operations").Some? && Get(data, "operations").value.JObject? {
      operations := ParseOperations(Get(data, "operations").value.members);
    }
    if operations.Fail? {
      return Fail(operations.error);
    }
    var rootRef := GetString(data, ["root", "$ref"]);
    var definitions := DocumentDefinitions(data);
    if Get(data, "definitions").Some? && Get(data, "definitions").value.JObject? {
      definitions := ParseDefinitions(Get(data, "definitions").value.members, rootRef);
    }
    if definitions.Fail? {
      return Fail(definitions.error);
    }
    return Ok(DocumentData(imports.value, operations.value, definitions.value.types, definitions.value.root,
                           baseUrl, security));
  }
}
