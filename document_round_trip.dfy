/**
 * How parse inverts toModel for a whole document: the TypeAPI object the
 * generator writes reads back as the document it was written from, when
 * every operation and definition in it is written without loss, their
 * names are distinct, and the document has no imports.
 */
module DocumentRoundTrip {
  import opened Wrappers
  import opened JsonTree
  import TypeModel
  import opened SecurityModel
  import opened DocumentModel
  import opened Parser
  import opened Generator
  import opened RoundTrip
  import opened OperationRoundTrip

  /**
   * A record built by a generator loop over items with distinct keys, each
   * of whose nodes parses back under its key, is gathered back into the
   * same items in the same order.
   */
  lemma {:induction false} RecordGathersBack<T>(items: seq<T>, key: T -> Option<string>, node: T -> Result<Members>,
                                                parse: (string, Members) -> Result<T>)
    requires forall i, j :: 0 <= i < j < |items| ==> key(items[i]) != key(items[j])
    requires forall i :: 0 <= i < |items| ==>
               key(items[i]).Some? && node(items[i]).Ok? && parse(key(items[i]).value, node(items[i]).value) == Ok(items[i])
    ensures Collect(items, key, node).Ok?
    ensures Gathered(Collect(items, key, node).value, parse) == Ok(items)
  {
    if items != [] {
      var init := items[..|items| - 1];
      var last := items[|items| - 1];
      assert forall i :: 0 <= i < |init| ==> init[i] == items[i];
      RecordGathersBack(init, key, node, parse);
      FreshLastKey(items, key, node);
      CollectAppends(items, key, node);
      GatheredAppend(Collect(init, key, node).value, key(last).value, node(last).value, parse);
      assert init + [last] == items;
    }
  }

  /** With distinct keys, the key of the last item is not yet in the record of the items before it. */
  lemma FreshLastKey<T>(items: seq<T>, key: T -> Option<string>, node: T -> Result<Members>)
    requires items != [] && key(items[|items| - 1]).Some?
    requires forall i, j :: 0 <= i < j < |items| ==> key(items[i]) != key(items[j])
    requires Collect(items[..|items| - 1], key, node).Ok?
    ensures key(items[|items| - 1]).value !in Keys(Collect(items[..|items| - 1], key, node).value)
  {
    var init := items[..|items| - 1];
    CollectKeys(init, key, node);
    forall i | 0 <= i < |init| ensures key(init[i]) != key(items[|items| - 1]) {
      assert init[i] == items[i];
    }
  }

  /** Gathering one more object-valued entry appends its parse. */
  lemma GatheredAppend<T>(record: Members, k: string, m: Members, parse: (string, Members) -> Result<T>)
    requires Gathered(record, parse).Ok? && parse(k, m).Ok?
    ensures Gathered(record + [(k, JObject(m))], parse) == Ok(Gathered(record, parse).value + [parse(k, m).value])
  {
    var entries := record + [(k, JObject(m))];
    assert entries[..|entries| - 1] == record;
  }

  /** The security a document can carry through toModel: none, or a known scheme with only that scheme's fields. */
  predicate SecurityWrittenWithoutLoss(security: Option<SecurityData>) {
    security.None? ||
    var s := security.value;
    if s.kind == Some("httpBasic") || s.kind == Some("httpBearer") then
      s.name.None? && s.location.None? && s.tokenUrl.None? && s.authorizationUrl.None? && s.scopes.None?
    else if s.kind == Some("apiKey") then
      s.tokenUrl.None? && s.authorizationUrl.None? && s.scopes.None?
    else
      s.kind == Some("oauth2") && s.name.None? && s.location.None?
  }

  /**
   * A document toModel writes without loss: no imports (an import is read
   * back through the resolver, not from the object), operations and
   * definitions written without loss under distinct names, every
   * definition named, a root in range, a base URL that is absent or not
   * empty, and security as above.
   */
  predicate DocumentWrittenWithoutLoss(d: DocumentData) {
    && d.imports == []
    && (forall i :: 0 <= i < |d.operations| ==> OperationWrittenWithoutLoss(d.operations[i]))
    && (forall i, j :: 0 <= i < j < |d.operations| ==> d.operations[i].name != d.operations[j].name)
    && (forall i :: 0 <= i < |d.types| ==> DefinitionWrittenWithoutLoss(d.types[i]) && !EmptyString(d.types[i].name))
    && (forall i, j :: 0 <= i < j < |d.types| ==> d.types[i].name != d.types[j].name)
    && (d.root.Some? ==> 0 <= d.root.value < |d.types|)
    && (d.baseUrl.Some? ==> !EmptyString(d.baseUrl))
    && SecurityWrittenWithoutLoss(d.security)
  }

  /** The operations record parses back into the operations, in order. */
  lemma OperationsRoundTrip(ops: seq<OperationData>)
    requires forall i :: 0 <= i < |ops| ==> OperationWrittenWithoutLoss(ops[i])
    requires forall i, j :: 0 <= i < j < |ops| ==> ops[i].name != ops[j].name
    ensures GeneratedOperations(ops).Ok?
    ensures ParsedOperations(GeneratedOperations(ops).value) == Ok(ops)
  {
    forall i | 0 <= i < |ops|
      ensures GeneratedOperation(ops[i]).Ok? && ParsedOperation(OperationKey(ops[i]).value, GeneratedOperation(ops[i]).value) == Ok(ops[i])
    {
      OperationRoundTrip.OperationRoundTrip(ops[i]);
    }
    RecordGathersBack(ops, OperationKey, GeneratedOperation, ParsedOperation);
    ParsedOperationsGathered(GeneratedOperations(ops).value);
  }

  /** The definitions record parses back into the definitions, in order. */
  lemma DefinitionsRoundTrip(types: seq<TypeModel.TypeData>, rootRef: Option<string>)
    requires forall i :: 0 <= i < |types| ==> DefinitionWrittenWithoutLoss(types[i]) && !EmptyString(types[i].name)
    requires forall i, j :: 0 <= i < j < |types| ==> types[i].name != types[j].name
    ensures GeneratedDefinitions(types).Ok?
    ensures ParsedDefinitions(GeneratedDefinitions(types).value, rootRef).Ok?
    ensures ParsedDefinitions(GeneratedDefinitions(types).value, rootRef).value.types == types
  {
    forall i | 0 <= i < |types|
      ensures DefinitionKey(types[i]).Some? && GeneratedDefinition(types[i]).Ok? &&
              ParsedDefinition(DefinitionKey(types[i]).value, GeneratedDefinition(types[i]).value) == Ok(types[i])
    {
      DefinitionRoundTrip(types[i].name.value, types[i]);
    }
    RecordGathersBack(types, DefinitionKey, GeneratedDefinition, ParsedDefinition);
    ParsedDefinitionsGathered(GeneratedDefinitions(types).value, rootRef);
  }

  /** The root read back from the definitions record is the index whose name the root field holds. */
  lemma RootRoundTrip(d: DocumentData)
    requires DocumentWrittenWithoutLoss(d)
    ensures GeneratedDefinitions(d.types).Ok?
    ensures ParsedDefinitions(GeneratedDefinitions(d.types).value, RootName(d)) == Ok(DefinitionsState(d.types, d.root))
  {
    DefinitionsRoundTrip(d.types, RootName(d));
    var defs := GeneratedDefinitions(d.types).value;
    ParsedDefinitionsRoot(defs, RootName(d));
    RootIndex(ParsedDefinitions(defs, RootName(d)).value, d);
  }

  /**
   * A state holding the document's definitions, whose root is the last
   * definition named as the root field says (and none when none is), has
   * the document's root.
   */
  lemma RootIndex(s: DefinitionsState, d: DocumentData)
    requires DocumentWrittenWithoutLoss(d) && s.types == d.types
    requires s.root.Some? ==> 0 <= s.root.value < |s.types| && s.types[s.root.value].name == RootName(d)
    requires s.root.None? ==> forall j :: 0 <= j < |s.types| ==> s.types[j].name != RootName(d)
    ensures s.root == d.root
  {
    if d.root.Some? {
      var i := d.root.value;
      assert d.types[i].name == RootName(d);
      var r := s.root.value;
      assert d.types[r].name == d.types[i].name;
    }
  }

  /** The security object toModel writes constructs the document's security scheme again. */
  lemma SecurityRoundTrip(security: Option<SecurityData>)
    requires SecurityWrittenWithoutLoss(security)
    ensures security.Some? ==> GeneratedSecurity(security) == Some(SecurityToArray(security.value))
    ensures security.Some? ==> SecurityFromArray(GeneratedSecurity(security).value) == security.value
    ensures security.None? ==> GeneratedSecurity(security).None?
  {
    if security.Some? {
      SecurityArrayRoundTrip(security.value);
    }
  }

  /**
   * parse inverts toModel: a document written without loss, with no base
   * URL passed in, reads back from the TypeAPI object as itself.
   */
  lemma DocumentRoundTrip(d: DocumentData, resolve: Resolver)
    requires DocumentWrittenWithoutLoss(d)
    ensures GeneratedModel(d, None).Ok?
    ensures ParsedDocument(GeneratedModel(d, None).value, resolve) == Ok(d)
  {
    OperationsRoundTrip(d.operations);
    RootRoundTrip(d);
    SecurityRoundTrip(d.security);
    var f := ModelFields(BaseUrl(d, None), GeneratedSecurity(d.security), GeneratedImport(d.imports),
                         GeneratedOperations(d.operations).value, GeneratedDefinitions(d.types).value, RootName(d));
    assert GeneratedModel(d, None) == Ok(ModelNode(f));
    ModelNodeKeys(f);
    ModelRootRead(f);
    SectionsRead(ModelNode(f), f, resolve);
  }

  /** The root name parse looks up in a TypeAPI object is the one written in its root field. */
  lemma ModelRootRead(f: ModelFields)
    ensures GetString(ModelNode(f), ["root", "$ref"]) == f.root
  {
    assert Get(ModelNode(f), "root") == ModelValue(f, "root");
    assert Get(ModelNode(f), "$ref") == ModelValue(f, "$ref");
    GetStringOnly(ModelNode(f), ["root", "$ref"], 0, f.root);
  }

  /** What each section reader of parse finds in an object holding the fields of a TypeAPI object with no imports. */
  lemma SectionsRead(data: Members, f: ModelFields, resolve: Resolver)
    requires f.imports.None? && Get(data, "import").None?
    requires Get(data, "operations") == Some(JObject(f.operations))
    requires Get(data, "definitions") == Some(JObject(f.definitions))
    requires GetString(data, ["root", "$ref"]) == f.root
    requires Get(data, "baseUrl") == OptString(f.baseUrl)
    requires Get(data, "security") == OptObject(f.security)
    ensures DocumentImports(data, resolve) == Ok([])
    ensures DocumentOperations(data) == ParsedOperations(f.operations)
    ensures DocumentDefinitions(data) == ParsedDefinitions(f.definitions, f.root)
    ensures StringEntry(data, "baseUrl") == f.baseUrl
    ensures DocumentSecurity(data) == if f.security.Some? then Some(SecurityFromArray(f.security.value)) else None
  {
  }
}
