/**
 * The operation and document records the engines exchange. Their classes
 * are not part of this model; their fields are the ones the parser sets and
 * the generator reads, and the document's fields follow its constructor.
 */
module DocumentModel {
  import opened Wrappers
  import opened JsonTree
  import opened TypeModel
  import opened SecurityModel
  import opened ImportModel
  import opened ErrorModel
  import opened ArgumentModel

  /** An operation; `returnType` is the source's `return`. */
  datatype OperationData = OperationData(
    name: string,
    description: Option<string>,
    httpMethod: Option<string>,
    httpPath: Option<string>,
    arguments: seq<ArgumentData>,
    payload: Option<string>,
    payloadShape: Option<string>,
    throws: seq<ErrorData>,
    returnType: Option<string>,
    returnShape: Option<string>,
    httpCode: Option<int>,
    stability: Option<int>,
    security: Option<seq<Json>>,
    authorization: Option<bool>,
    tags: Option<seq<Json>>)

  /** `new Operation([])` named `name`: no arguments, no throws, every other field null. */
  function EmptyOperation(name: string): OperationData {
    OperationData(name, None, None, None, [], None, None, [], None, None, None, None, None, None, None)
  }

  /** A document: imports, operations, definitions, the index of the root definition, base URL and security. */
  datatype DocumentData = DocumentData(
    imports: seq<ImportData>,
    operations: seq<OperationData>,
    types: seq<TypeData>,
    root: Option<int>,
    baseUrl: Option<string>,
    security: Option<SecurityData>)
}
