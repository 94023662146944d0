/** Option and Result types shared by the model, and the failures both engines can raise. */
module Wrappers {

  /** A nullable value: PHP `null` is `None`. */
  datatype Option<+T> = None | Some(value: T) {
    function Map<U>(f: T -> U): Option<U> {
      match this
      case Some(v) => Some(f(v))
      case None => None
    }

    function GetOr(default: T): T {
      match this
      case Some(v) => v
      case None => default
    }
  }

  /**
   * Why a transformation stopped. The first group are the `ParserException`s
   * of the parser, `NotAnObject` is the PHP TypeError raised when a value that
   * is not a JSON object reaches a `\stdClass` parameter, and the last group
   * are the `GeneratorException`s of the generator.
   */
  datatype Failure =
    | InvalidSchema                 // resolveType: no reference, generic or type
    | UnresolvedDefinitionType      // resolveDefinitionType: no kind can be derived
    | InvalidDefinitionType         // resolveDefinitionType: kind outside struct/map/array
    | UnresolvedPropertyType        // resolvePropertyType: no type can be derived
    | MissingMapArraySchema         // resolvePropertyType: map/array without nested schema
    | InvalidPropertyType           // resolvePropertyType: type outside the nine property types
    | ArgumentInNotString           // parseArgument: `in` is not a string
    | ArgumentSchemaMissing         // parseArgument: neither schema nor contentType
    | ThrowCodeNotInteger           // parseThrow: `code` is not an integer
    | ThrowSchemaMissing            // parseThrow: no schema
    | ImportUnresolved(alias: string) // parse: the schema source rejected an import
    | NotAnObject                   // PHP TypeError on a \stdClass parameter
    | ArgumentInMissing             // generateOperation: argument without `in`
    | ArgumentTypeMissing           // generateOperation: argument without `type`
    | ThrowTypeMissing              // generateOperation: throw without `type`
    | EmptyReference                // resolveReferenceType: empty reference
    | UnknownPropertyType           // generatePropertyType: type outside the nine (and `union`)

  /** The outcome of an operation that may throw. */
  datatype Result<+T> = Ok(value: T) | Fail(error: Failure) {
    predicate IsFailure() {
      Fail?
    }

    function PropagateFailure<U>(): Result<U>
      requires Fail?
    {
      Fail(error)
    }

    function Extract(): T
      requires Ok?
    {
      value
    }
  }
}
