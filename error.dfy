/** The `Error` record of the editor document (src/Model/Error.php): a response an operation can throw. */
module ErrorModel {
  import opened Wrappers
  import opened JsonTree

  /** The fields of a throw descriptor; `kind` is the source's `type`. */
  datatype ErrorData = ErrorData(code: Option<int>, kind: Option<string>, typeShape: Option<string>)

  /** The constructor: each field from its key, null when missing. */
  function ErrorFromArray(throw: Members): (r: ErrorData)
    ensures Get(throw, "code").None? ==> r.code.None?
    ensures Get(throw, "code").Some? && Get(throw, "code").value.JInt? ==> r.code == Some(Get(throw, "code").value.i)
    ensures Get(throw, "type").None? ==> r.kind.None?
    ensures Get(throw, "type").Some? && Get(throw, "type").value.JString? ==> r.kind == Some(Get(throw, "type").value.s)
    ensures Get(throw, "typeShape").None? ==> r.typeShape.None?
    ensures Get(throw, "typeShape").Some? && Get(throw, "typeShape").value.JString? ==>
              r.typeShape == Some(Get(throw, "typeShape").value.s)
  {
    ErrorData(IntEntry(throw, "code"), StringEntry(throw, "type"), StringEntry(throw, "typeShape"))
  }

  /** The value `jsonSerialize` reports under `key`: the field of that name, or nothing. */
  function ErrorValue(e: ErrorData, key: string): Option<Json> {
    if key == "code" then OptInt(e.code)
    else if key == "type" then OptString(e.kind)
    else if key == "typeShape" then OptString(e.typeShape)
    else None
  }

  /** The keys `jsonSerialize` can emit, in the order it emits them. */
  const ERROR_KEYS: seq<string> := ["code", "type", "typeShape"]

  /** The key/value list jsonSerialize filters, in declaration order. */
  function ErrorFields(e: ErrorData): FieldList {
    [("code", OptInt(e.code)), ("type", OptString(e.kind)), ("typeShape", OptString(e.typeShape))]
  }

  /** jsonSerialize: the non-null fields in the order code, type, typeShape. */
  function ErrorToArray(e: ErrorData): (r: Members)
    ensures forall k :: Get(r, k) == ErrorValue(e, k)
    ensures Keys(r) == Present(ERROR_KEYS, r)
    ensures |r| <= 3
  {
    var fs := ErrorFields(e);
    assert Names(fs) == ERROR_KEYS;
    FieldsOrder(fs);
    assert forall k :: Get(Fields(fs), k) == ErrorValue(e, k) by {
      forall k ensures Get(Fields(fs), k) == ErrorValue(e, k) {
        ErrorToArrayGet(e, k);
      }
    }
    Fields(fs)
  }

  lemma ErrorToArrayGet(e: ErrorData, k: string)
    ensures Get(Fields(ErrorFields(e)), k) == ErrorValue(e, k)
  {
    var fs := ErrorFields(e);
    if k in ERROR_KEYS {
      var i :| 0 <= i < |ERROR_KEYS| && ERROR_KEYS[i] == k;
      FieldsGet(fs, i);
    } else {
      assert Names(fs) == ERROR_KEYS;
      FieldsGetAbsent(fs, k);
    }
  }

  /** Serialising a throw descriptor and constructing one from the result gives it back. */
  lemma ErrorArrayRoundTrip(e: ErrorData)
    ensures ErrorFromArray(ErrorToArray(e)) == e
  {
    var arr := ErrorToArray(e);
    assert Get(arr, "code") == ErrorValue(e, "code");
    assert Get(arr, "type") == ErrorValue(e, "type");
    assert Get(arr, "typeShape") == ErrorValue(e, "typeShape");
  }

  /** Error: a mutable record whose setters each change one field. */
  class Error {
    var code: Option<int>
    var kind: Option<string>
    var typeShape: Option<string>

    function Data(): ErrorData
      reads this
    {
      ErrorData(code, kind, typeShape)
    }

    constructor (throw: Members)
      ensures Data() == ErrorFromArray(throw)
    {
      code := IntEntry(throw, "code");
      kind := StringEntry(throw, "type");
      typeShape := StringEntry(throw, "typeShape");
    }

    method SetCode(code: Option<int>)
      modifies this
      ensures Data() == old(Data()).(code := code)
    {
      this.code := code;
    }

    method SetType(kind: Option<string>)
      modifies this
      ensures Data() == old(Data()).(kind := kind)
    {
      this.kind := kind;
    }

    method SetTypeShape(typeShape: Option<string>)
      modifies this
      ensures Data() == old(Data()).(typeShape := typeShape)
    {
      this.typeShape := typeShape;
    }

    function JsonSerialize(): (r: Members)
      reads this
      ensures forall k :: Get(r, k) == ErrorValue(Data(), k)
      ensures Keys(r) == Present(ERROR_KEYS, r)
    {
      ErrorToArray(Data())
    }
  }
}
