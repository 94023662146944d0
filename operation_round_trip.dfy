/**
 * How parseOperation inverts generateOperation: the arguments, payload,
 * throws and response the generator writes for an operation read back as
 * the operation they were written from.
 */
module OperationRoundTrip {
  import opened Wrappers
  import opened JsonTree
  import opened ArgumentModel
  import opened ErrorModel
  import opened DocumentModel
  import opened Parser
  import opened Generator
  import opened RoundTrip

  /** parseArgument reads an argument the generator wrote back as its location and type, with no shape. */
  lemma ArgumentRoundTrip(name: string, location: string, kind: string)
    requires !EmptyString(Some(kind))
    ensures ResolveReferenceType(Some(kind), None, None).Ok?
    ensures ParseArgument(name, JObject(ArgumentNode(location, ResolveReferenceType(Some(kind), None, None).value))) ==
              Ok((ArgumentData(Some(name), Some(location), Some(kind)), None))
  {
    ReferenceTypeResolves(kind);
  }

  /** parseArgument reads the payload argument back as a body argument of the payload type, with its shape. */
  lemma PayloadRoundTrip(payload: string, shape: Option<string>)
    requires !EmptyString(Some(payload)) && CollectionShape(shape)
    ensures ParseArgument("payload", JObject(ArgumentNode(IN_BODY, TypeShape(payload, shape)))) ==
              Ok((ArgumentData(Some("payload"), Some(IN_BODY), Some(payload)), shape))
  {
    TypeShapeRoundTrip(payload, shape);
  }

  /** A throw the generator writes without loss: a code other than 204, a type, and a map, array or no shape. */
  predicate ThrowWrittenWithoutLoss(e: ErrorData) {
    e.code.Some? && e.code != Some(204) && !EmptyString(e.kind) && CollectionShape(e.typeShape)
  }

  /** parseThrow inverts generateResponse for a throw: code, type and shape come back. */
  lemma ThrowRoundTrip(e: ErrorData)
    requires ThrowWrittenWithoutLoss(e)
    ensures ParseThrow(JObject(GenerateResponse(e.code.GetOr(500), e.kind.value, e.typeShape))) == Ok(e)
  {
    TypeShapeRoundTrip(e.kind.value, e.typeShape);
  }

  /** The throws list reads back as the throws it was written from, in order. */
  lemma {:induction false} ThrowsRoundTrip(throws: seq<ErrorData>)
    requires forall i :: 0 <= i < |throws| ==> ThrowWrittenWithoutLoss(throws[i])
    ensures GeneratedThrows(throws).Ok?
    ensures ParsedThrows(GeneratedThrows(throws).value) == Ok(throws)
  {
    if throws != [] {
      var init := throws[..|throws| - 1];
      var e := throws[|throws| - 1];
      assert init + [e] == throws;
      assert forall i :: 0 <= i < |init| ==> init[i] == throws[i];
      ThrowsRoundTrip(init);
      ThrowRoundTrip(e);
      var node := JObject(GenerateResponse(e.code.GetOr(500), e.kind.value, e.typeShape));
      GeneratedThrowsAppend(throws);
      ParsedThrowsAppend(GeneratedThrows(init).value, node, init, e, GeneratedThrows(throws));
    }
  }

  /** One more throw with a type appends its response to the written list. */
  lemma GeneratedThrowsAppend(throws: seq<ErrorData>)
    requires throws != [] && GeneratedThrows(throws[..|throws| - 1]).Ok? && throws[|throws| - 1].kind.Some?
    ensures var e := throws[|throws| - 1];
            GeneratedThrows(throws) ==
              Ok(GeneratedThrows(throws[..|throws| - 1]).value + [JObject(GenerateResponse(e.code.GetOr(500), e.kind.value, e.typeShape))])
  {
  }

  /** A written list that grows by one entry which parses reads back with one more throw at the end. */
  lemma ParsedThrowsAppend(items: seq<Json>, node: Json, throws: seq<ErrorData>, e: ErrorData, written: Result<seq<Json>>)
    requires written == Ok(items + [node])
    requires ParsedThrows(items) == Ok(throws) && ParseThrow(node) == Ok(e)
    ensures written.Ok? && ParsedThrows(written.value) == Ok(throws + [e])
  {
    assert (items + [node])[..|items|] == items;
  }

  /**
   * An argument the generator writes without loss: named (never
   * `payload`, which the payload takes), located anywhere but in the body,
   * and typed.
   */
  predicate ArgumentWrittenWithoutLoss(a: ArgumentData) {
    !EmptyString(a.name) && a.name != Some("payload") && a.location.Some? && !a.IsBody() && !EmptyString(a.kind)
  }

  /** Arguments the generator writes without loss: each one so, no two under the same name. */
  predicate ArgumentsWrittenWithoutLoss(args: seq<ArgumentData>) {
    && (forall i :: 0 <= i < |args| ==> ArgumentWrittenWithoutLoss(args[i]))
    && (forall i, j :: 0 <= i < j < |args| ==> args[i].name != args[j].name)
  }

  /** The node the generator writes for an argument it writes without loss; parseArgument reads it back as that argument. */
  function ArgumentJson(a: ArgumentData): (r: Json)
    requires ArgumentWrittenWithoutLoss(a)
    ensures ParseArgument(a.name.value, r) == Ok((a, None))
  {
    ArgumentRoundTrip(a.name.value, a.location.value, a.kind.value);
    JObject(ArgumentNode(a.location.value, ResolveReferenceType(a.kind, None, None).value))
  }

  /** The arguments record written for arguments written without loss: each under its name, in order. */
  function WrittenArguments(args: seq<ArgumentData>): (r: Members)
    requires forall i :: 0 <= i < |args| ==> ArgumentWrittenWithoutLoss(args[i])
    ensures |r| == |args|
  {
    if args == [] then []
    else
      var node := ArgumentJson(args[|args| - 1]);
      WrittenArguments(args[..|args| - 1]) + [(args[|args| - 1].name.value, node)]
  }

  /** Each member of the written record is keyed by the name of its argument. */
  lemma {:induction false} WrittenArgumentsNames(args: seq<ArgumentData>)
    requires forall i :: 0 <= i < |args| ==> ArgumentWrittenWithoutLoss(args[i])
    ensures forall i :: 0 <= i < |args| ==> WrittenArguments(args)[i].0 == args[i].name.value
  {
    if args != [] {
      var init := args[..|args| - 1];
      var last := args[|args| - 1];
      assert forall i :: 0 <= i < |init| ==> init[i] == args[i];
      var member := (last.name.value, ArgumentJson(last));
      assert WrittenArguments(args) == WrittenArguments(init) + [member];
      WrittenArgumentsNames(init);
      NamesAppend(WrittenArguments(init), init, member, args);
    }
  }

  /** A record keyed by the names of some arguments, with one more member keyed by the next name, is keyed by all of them. */
  lemma NamesAppend(record: Members, init: seq<ArgumentData>, member: (string, Json), args: seq<ArgumentData>)
    requires |args| == |init| + 1 && |record| == |init| && init == args[..|init|]
    requires forall i :: 0 <= i < |init| ==> args[i].name.Some? && record[i].0 == args[i].name.value
    requires args[|init|].name == Some(member.0)
    ensures forall i :: 0 <= i < |args| ==> (record + [member])[i].0 == args[i].name.value
  {
  }

  /** The generator's arguments loop writes each argument under its own name, in order, and sets no payload aside. */
  lemma {:induction false} ArgumentsGenerated(args: seq<ArgumentData>)
    requires ArgumentsWrittenWithoutLoss(args)
    ensures GeneratedArguments(args) == Ok(ArgumentsRecord(WrittenArguments(args), None))
  {
    if args != [] {
      var init := args[..|args| - 1];
      var a := args[|args| - 1];
      assert forall i :: 0 <= i < |init| ==> init[i] == args[i];
      ArgumentsGenerated(init);
      WrittenArgumentsNames(init);
      var record := WrittenArguments(init);
      assert a.name.value !in Keys(record) by {
        forall i | 0 <= i < |init| ensures Keys(record)[i] != a.name.value {
          assert args[i].name != args[|args| - 1].name;
        }
      }
      GeneratedArgumentsAppend(args, record);
    }
  }

  /** The parser's arguments loop reads the written record back as the arguments, in order, with no payload. */
  lemma {:induction false} ArgumentsParsed(args: seq<ArgumentData>)
    requires forall i :: 0 <= i < |args| ==> ArgumentWrittenWithoutLoss(args[i])
    ensures ParsedArguments(WrittenArguments(args)) == Ok(ArgumentsState(args, None, None))
  {
    if args != [] {
      var init := args[..|args| - 1];
      var a := args[|args| - 1];
      assert init + [a] == args;
      assert forall i :: 0 <= i < |init| ==> init[i] == args[i];
      ArgumentsParsed(init);
      ArgumentsParseStep(WrittenArguments(init), init, a, a.name.value, ArgumentJson(a));
    }
  }

  /** One parsing step of the arguments round trip: the appended argument is read back at the end. */
  lemma ArgumentsParseStep(record: Members, init: seq<ArgumentData>, a: ArgumentData, name: string, node: Json)
    requires ParsedArguments(record) == Ok(ArgumentsState(init, None, None))
    requires ParseArgument(name, node) == Ok((a, None)) && !a.IsBody()
    ensures ParsedArguments(record + [(name, node)]) == Ok(ArgumentsState(init + [a], None, None))
  {
    ParsedArgumentsAppend(record, name, node);
  }

  lemma GeneratedArgumentsAppend(args: seq<ArgumentData>, record: Members)
    requires args != [] && ArgumentWrittenWithoutLoss(args[|args| - 1])
    requires GeneratedArguments(args[..|args| - 1]) == Ok(ArgumentsRecord(record, None))
    requires args[|args| - 1].name.value !in Keys(record)
    ensures ResolveReferenceType(args[|args| - 1].kind, None, None).Ok?
    ensures GeneratedArguments(args) ==
              Ok(ArgumentsRecord(record + [(args[|args| - 1].name.value,
                                            JObject(ArgumentNode(args[|args| - 1].location.value,
                                                                 ResolveReferenceType(args[|args| - 1].kind, None, None).value)))],
                                 None))
  {
    var a := args[|args| - 1];
    var node := JObject(ArgumentNode(a.location.value, ResolveReferenceType(a.kind, None, None).value));
    PutAbsent(record, a.name.value, node);
  }

  /** Parsing an arguments object with one more plain argument at its end gives one more argument at the end. */
  lemma ParsedArgumentsAppend(record: Members, name: string, value: Json)
    requires ParsedArguments(record).Ok? && ParseArgument(name, value).Ok? && !ParseArgument(name, value).value.0.IsBody()
    ensures ParsedArguments(record + [(name, value)]) ==
              Ok(ParsedArguments(record).value.(arguments := ParsedArguments(record).value.arguments +
                                                              [ParseArgument(name, value).value.0]))
  {
    assert (record + [(name, value)])[..|record|] == record;
  }
  /** Parsing an arguments object with a body argument at its end takes its type and shape as the payload. */
  lemma ParsedPayloadAppend(record: Members, name: string, value: Json)
    requires ParsedArguments(record).Ok? && ParseArgument(name, value).Ok? && ParseArgument(name, value).value.0.IsBody()
    ensures ParsedArguments(record + [(name, value)]) ==
              Ok(ParsedArguments(record).value.(payload := ParseArgument(name, value).value.0.kind,
                                                payloadShape := ParseArgument(name, value).value.1))
  {
    assert (record + [(name, value)])[..|record|] == record;
  }

  /**
   * An operation the generator writes without loss: its arguments so, a
   * payload only on a method with a body, a map, array or no payload
   * shape, its throws so, a return type only with a code other than 204
   * (and then a map, array or no shape), no code but 204 without a return
   * type, and no tags.
   */
  predicate OperationWrittenWithoutLoss(op: OperationData) {
    && ArgumentsWrittenWithoutLoss(op.arguments)
    && (op.payload.Some? ==> HasBody(op.httpMethod) && !EmptyString(op.payload))
    && (op.payload.None? ==> op.payloadShape.None?)
    && CollectionShape(op.payloadShape)
    && (forall i :: 0 <= i < |op.throws| ==> ThrowWrittenWithoutLoss(op.throws[i]))
    && (op.returnType.Some? ==> op.httpCode.Some? && op.httpCode != Some(204) && !EmptyString(op.returnType)
                                && CollectionShape(op.returnShape))
    && (op.returnType.None? ==> op.returnShape.None? && (op.httpCode.None? || op.httpCode == Some(204)))
    && op.tags.None?
  }

  /** The arguments record written for such an operation: its arguments, then the payload under `payload`. */
  function WrittenRecord(op: OperationData): Members
    requires OperationWrittenWithoutLoss(op)
  {
    WithPayload(WrittenArguments(op.arguments), PayloadArgument(op, None))
  }

  /** generateOperation writes such an operation field by field: the record when non-empty, the throws when any. */
  lemma OperationObjectWritten(op: OperationData)
    requires OperationWrittenWithoutLoss(op)
    ensures GeneratedThrows(op.throws).Ok?
    ensures OperationObject(op) ==
              Ok(OperationFields(op.description, op.httpMethod, op.httpPath,
                                 if |WrittenRecord(op)| > 0 then Some(WrittenRecord(op)) else None,
                                 if |op.throws| > 0 then Some(GeneratedThrows(op.throws).value) else None,
                                 ReturnNode(op), op.stability, op.security, op.authorization))
  {
    ArgumentsGenerated(op.arguments);
    ThrowsRoundTrip(op.throws);
  }

  /** The arguments object of such an operation reads back as its arguments, payload and payload shape. */
  lemma OperationArgumentsParsed(op: OperationData, m: Members)
    requires OperationWrittenWithoutLoss(op)
    requires Get(m, "arguments") == OptObject(if |WrittenRecord(op)| > 0 then Some(WrittenRecord(op)) else None)
    ensures OperationArguments(m) == Ok(ArgumentsState(op.arguments, op.payload, op.payloadShape))
  {
    WrittenRecordParsed(op);
  }

  /** The written record reads back as the arguments, payload and payload shape; it is empty only when they are. */
  lemma WrittenRecordParsed(op: OperationData)
    requires OperationWrittenWithoutLoss(op)
    ensures ParsedArguments(WrittenRecord(op)) == Ok(ArgumentsState(op.arguments, op.payload, op.payloadShape))
    ensures |WrittenRecord(op)| == 0 ==> op.arguments == [] && op.payload.None?
  {
    ArgumentsParsed(op.arguments);
    if op.payload.Some? {
      WrittenArgumentsNoPayload(op.arguments);
      PayloadRecordParsed(op.arguments, WrittenArguments(op.arguments), op.payload.value, op.payloadShape);
    }
  }

  /** No argument written without loss takes the `payload` key. */
  lemma WrittenArgumentsNoPayload(args: seq<ArgumentData>)
    requires forall i :: 0 <= i < |args| ==> ArgumentWrittenWithoutLoss(args[i])
    ensures "payload" !in Keys(WrittenArguments(args))
  {
    var record := WrittenArguments(args);
    WrittenArgumentsNames(args);
    forall i | 0 <= i < |record| ensures Keys(record)[i] != "payload" {
      assert args[i].name != Some("payload");
    }
  }

  /** A record of plain arguments with the payload put under `payload` reads back with that payload and shape. */
  lemma PayloadRecordParsed(args: seq<ArgumentData>, record: Members, payload: string, shape: Option<string>)
    requires ParsedArguments(record) == Ok(ArgumentsState(args, None, None)) && "payload" !in Keys(record)
    requires !EmptyString(Some(payload)) && CollectionShape(shape)
    ensures ParsedArguments(Put(record, "payload", JObject(ArgumentNode(IN_BODY, TypeShape(payload, shape))))) ==
              Ok(ArgumentsState(args, Some(payload), shape))
  {
    var node := JObject(ArgumentNode(IN_BODY, TypeShape(payload, shape)));
    PutAbsent(record, "payload", node);
    PayloadRoundTrip(payload, shape);
    ParsedPayloadAppend(record, "payload", node);
  }

  /** The return object of such an operation reads back as its code, return type and shape. */
  lemma OperationReturnParsed(op: OperationData, m: Members)
    requires OperationWrittenWithoutLoss(op)
    requires Get(m, "return") == OptObject(ReturnNode(op))
    ensures ParsedReturn(m) == Ok(ReturnState(op.httpCode, op.returnType, op.returnShape))
  {
    if op.returnType.Some? {
      ReturnOfTypeParsed(m, op.httpCode.value, op.returnType.value, op.returnShape);
    } else if op.httpCode == Some(204) {
      NoContentReturnParsed(m);
    }
  }

  /** A written response with a code other than 204 reads back as its code, type and shape. */
  lemma ReturnOfTypeParsed(m: Members, code: int, name: string, shape: Option<string>)
    requires code != 204 && !EmptyString(Some(name)) && CollectionShape(shape)
    requires Get(m, "return") == Some(JObject(GenerateResponse(code, name, shape)))
    ensures ParsedReturn(m) == Ok(ReturnState(Some(code), Some(name), shape))
  {
    var ret := GenerateResponse(code, name, shape);
    assert Get(ret, "schema") == Some(JObject(TypeShape(name, shape)));
    IntEntryReads(ret, "code", Some(code));
    TypeShapeRoundTrip(name, shape);
  }

  /** A written 204 response reads back as the bare code. */
  lemma NoContentReturnParsed(m: Members)
    requires Get(m, "return") == Some(JObject(GenerateResponse(204, "", None)))
    ensures ParsedReturn(m) == Ok(ReturnState(Some(204), None, None))
  {
    IntEntryReads(GenerateResponse(204, "", None), "code", Some(204));
  }

  /** The throws list of such an operation reads back as its throws. */
  lemma OperationThrowsParsed(op: OperationData, m: Members)
    requires OperationWrittenWithoutLoss(op) && GeneratedThrows(op.throws).Ok?
    requires Get(m, "throws") == OptList(if |op.throws| > 0 then Some(GeneratedThrows(op.throws).value) else None)
    ensures OperationThrows(m) == Ok(op.throws)
  {
    ThrowsRoundTrip(op.throws);
  }

  /**
   * parseOperation inverts generateOperation: an operation written without
   * loss reads back, under its name, as the operation it was written from.
   */
  lemma OperationRoundTrip(op: OperationData)
    requires OperationWrittenWithoutLoss(op)
    ensures GeneratedOperation(op).Ok?
    ensures ParsedOperation(op.name, GeneratedOperation(op).value) == Ok(op)
  {
    OperationObjectWritten(op);
    var f := OperationObject(op).value;
    var m := OperationNode(f);
    OperationSectionsRead(f, m);
    OperationEntriesRead(f, m);
    OperationArgumentsParsed(op, m);
    OperationThrowsParsed(op, m);
    OperationReturnParsed(op, m);
  }

  /** The sections parseOperation reads from an operation object: arguments, throws and return as set, no tags. */
  lemma OperationSectionsRead(f: OperationFields, m: Members)
    requires forall k :: Get(m, k) == OperationValue(f, k)
    ensures Get(m, "arguments") == OptObject(f.arguments)
    ensures Get(m, "throws") == OptList(f.throws)
    ensures Get(m, "return") == OptObject(f.response)
    ensures GetList(m, "tags") == None
  {
    ListEntryReads(m, "tags", None);
  }

  /** The plain fields parseOperation reads from an operation object, each as it was set. */
  lemma OperationEntriesRead(f: OperationFields, m: Members)
    requires forall k :: Get(m, k) == OperationValue(f, k)
    ensures StringEntry(m, "description") == f.description
    ensures StringEntry(m, "method") == f.httpMethod
    ensures StringEntry(m, "path") == f.httpPath
    ensures IntEntry(m, "stability") == f.stability
    ensures GetList(m, "security") == f.security
    ensures BoolEntry(m, "authorization") == f.authorization
  {
    StringEntryReads(m, "description", f.description);
    StringEntryReads(m, "method", f.httpMethod);
    StringEntryReads(m, "path", f.httpPath);
    IntEntryReads(m, "stability", f.stability);
    ListEntryReads(m, "security", f.security);
    BoolEntryReads(m, "authorization", f.authorization);
  }
}
