/** The `Argument` record of the editor document (src/Model/Argument.php): a named operation parameter. */
module ArgumentModel {
  import opened Wrappers
  import opened JsonTree

  /** The location that turns an argument into the operation's payload, in both engines. */
  const IN_BODY: string := "body"

  /** The fields of an argument; `location` is the source's `in`, `kind` its `type`. */
  datatype ArgumentData = ArgumentData(name: Option<string>, location: Option<string>, kind: Option<string>) {
    predicate IsBody() {
      location == Some(IN_BODY)
    }
  }

  /** The constructor: each field from its key, null when missing. */
  function ArgumentFromArray(argument: Members): (r: ArgumentData)
    ensures Get(argument, "name").None? ==> r.name.None?
    ensures Get(argument, "name").Some? && Get(argument, "name").value.JString? ==> r.name == Some(Get(argument, "name").value.s)
    ensures Get(argument, "in").None? ==> r.location.None?
    ensures Get(argument, "in").Some? && Get(argument, "in").value.JString? ==> r.location == Some(Get(argument, "in").value.s)
    ensures Get(argument, "type").None? ==> r.kind.None?
    ensures Get(argument, "type").Some? && Get(argument, "type").value.JString? ==> r.kind == Some(Get(argument, "type").value.s)
  {
    ArgumentData(StringEntry(argument, "name"), StringEntry(argument, "in"), StringEntry(argument, "type"))
  }

  /** The value `jsonSerialize` reports under `key`: the field of that name, or nothing. */
  function ArgumentValue(a: ArgumentData, key: string): Option<Json> {
    if key == "name" then OptString(a.name)
    else if key == "in" then OptString(a.location)
    else if key == "type" then OptString(a.kind)
    else None
  }

  /** The keys `jsonSerialize` can emit, in the order it emits them. */
  const ARGUMENT_KEYS: seq<string> := ["name", "in", "type"]

  /** The key/value list jsonSerialize filters, in declaration order. */
  function ArgumentFields(a: ArgumentData): FieldList {
    [("name", OptString(a.name)), ("in", OptString(a.location)), ("type", OptString(a.kind))]
  }

  /** jsonSerialize: the non-null fields in the order name, in, type. */
  function ArgumentToArray(a: ArgumentData): (r: Members)
    ensures forall k :: Get(r, k) == ArgumentValue(a, k)
    ensures Keys(r) == Present(ARGUMENT_KEYS, r)
    ensures |r| <= 3
  {
    var fs := ArgumentFields(a);
    assert Names(fs) == ARGUMENT_KEYS;
    FieldsOrder(fs);
    assert forall k :: Get(Fields(fs), k) == ArgumentValue(a, k) by {
      forall k ensures Get(Fields(fs), k) == ArgumentValue(a, k) {
        ArgumentToArrayGet(a, k);
      }
    }
    Fields(fs)
  }

  lemma ArgumentToArrayGet(a: ArgumentData, k: string)
    ensures Get(Fields(ArgumentFields(a)), k) == ArgumentValue(a, k)
  {
    var fs := ArgumentFields(a);
    if k in ARGUMENT_KEYS {
      var i :| 0 <= i < |ARGUMENT_KEYS| && ARGUMENT_KEYS[i] == k;
      FieldsGet(fs, i);
    } else {
      assert Names(fs) == ARGUMENT_KEYS;
      FieldsGetAbsent(fs, k);
    }
  }

  /** Serialising an argument and constructing one from the result gives it back. */
  lemma ArgumentArrayRoundTrip(a: ArgumentData)
    ensures ArgumentFromArray(ArgumentToArray(a)) == a
  {
    var arr := ArgumentToArray(a);
    assert Get(arr, "name") == ArgumentValue(a, "name");
    assert Get(arr, "in") == ArgumentValue(a, "in");
    assert Get(arr, "type") == ArgumentValue(a, "type");
  }

  /** Argument: a mutable record whose setters each change one field. */
  class Argument {
    var name: Option<string>
    var location: Option<string>
    var kind: Option<string>

    function Data(): ArgumentData
      reads this
    {
      ArgumentData(name, location, kind)
    }

    constructor (argument: Members)
      ensures Data() == ArgumentFromArray(argument)
    {
      name := StringEntry(argument, "name");
      location := StringEntry(argument, "in");
      kind := StringEntry(argument, "type");
    }

    method SetName(name: Option<string>)
      modifies this
      ensures Data() == old(Data()).(name := name)
    {
      this.name := name;
    }

    method SetIn(location: Option<string>)
      modifies this
      ensures Data() == old(Data()).(location := location)
    {
      this.location := location;
    }

    method SetType(kind: Option<string>)
      modifies this
      ensures Data() == old(Data()).(kind := kind)
    {
      this.kind := kind;
    }

    function JsonSerialize(): (r: Members)
      reads this
      ensures forall k :: Get(r, k) == ArgumentValue(Data(), k)
      ensures Keys(r) == Present(ARGUMENT_KEYS, r)
    {
      ArgumentToArray(Data())
    }
  }
}
