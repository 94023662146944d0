/**
 * Decoded JSON as the PHP code sees it after `json_decode`: objects keep the
 * order of their keys (the order `get_object_vars` and `foreach` report), and
 * the same ordered key/value list stands for a PHP associative array.
 */
module JsonTree {
  import opened Wrappers

  datatype Json =
    | JNull
    | JBool(b: bool)
    | JInt(i: int)
    | JReal(r: real)
    | JString(s: string)
    | JArray(items: seq<Json>)
    | JObject(members: Members)

  /** The members of an object, or the entries of an associative array, in order. */
  type Members = seq<(string, Json)>

  function Keys(m: Members): (r: seq<string>)
    ensures |r| == |m|
    ensures forall i :: 0 <= i < |m| ==> r[i] == m[i].0
  {
    if m == [] then [] else [m[0].0] + Keys(m[1..])
  }

  /** PHP `empty()` on a nullable string: null, "" and "0" are empty. */
  predicate EmptyString(s: Option<string>) {
    s.None? || s.value == "" || s.value == "0"
  }

  /**
   * `$object->key ?? null`: the value under the first occurrence of `key`.
   * A decoded JSON object holds each key at most once (PHP's decoder keeps
   * the last of repeated keys), so for decoded input the occurrence read is
   * the only one.
   */
  function Get(m: Members, key: string): Option<Json>
  {
    if m == [] then None
    else if m[0].0 == key then Some(m[0].1)
    else Get(m[1..], key)
  }

  /** Get finds a key exactly when it occurs, and then reports its first occurrence. */
  lemma {:induction false} GetFirst(m: Members, key: string)
    ensures Get(m, key).Some? <==> key in Keys(m)
    ensures Get(m, key).Some? ==> exists i :: 0 <= i < |m| && m[i] == (key, Get(m, key).value) &&
                                             forall j :: 0 <= j < i ==> m[j].0 != key
  {
    if m != [] && m[0].0 != key {
      GetFirst(m[1..], key);
      assert Keys(m) == [m[0].0] + Keys(m[1..]);
      var r := Get(m, key);
      if r.Some? {
        var i :| 0 <= i < |m[1..]| && m[1..][i] == (key, r.value) &&
                 forall j :: 0 <= j < i ==> m[1..][j].0 != key;
        assert m[i + 1] == (key, r.value);
        forall j | 0 <= j < i + 1 ensures m[j].0 != key {
          if j > 0 { assert m[j] == m[1..][j - 1]; }
        }
      }
    } else if m != [] {
      assert m[0] == (key, m[0].1);
    }
  }

  /** Looking a key up in a concatenation looks in the left part first. */
  lemma {:induction false} GetAppend(a: Members, b: Members, key: string)
    ensures Get(a + b, key) == if Get(a, key).Some? then Get(a, key) else Get(b, key)
  {
    if a != [] {
      assert (a + b)[1..] == a[1..] + b;
      GetAppend(a[1..], b, key);
    } else {
      assert a + b == b;
    }
  }

  /** The JSON kinds the lookups of the parser test with `is_string`, `instanceof \stdClass`, `is_bool` and `is_int`. */
  datatype Kind = StringKind | ObjectKind | BoolKind | IntKind

  predicate OfKind(v: Json, kind: Kind) {
    match kind
    case StringKind => v.JString?
    case ObjectKind => v.JObject?
    case BoolKind => v.JBool?
    case IntKind => v.JInt?
  }

  /** `isset($data->{$key})` together with the kind test. */
  predicate HasKindAt(m: Members, key: string, kind: Kind) {
    Get(m, key).Some? && OfKind(Get(m, key).value, kind)
  }

  /**
   * The shared loop of getString/getObject/getBoolean: the value of the first
   * keyword, in the order given, that is present with the right kind.
   */
  function FirstOfKind(m: Members, keywords: seq<string>, kind: Kind): Option<Json>
  {
    if keywords == [] then None
    else if HasKindAt(m, keywords[0], kind) then Get(m, keywords[0])
    else FirstOfKind(m, keywords[1..], kind)
  }

  /** FirstOfKind finds a value exactly when some keyword has one of the wanted kind, and then reports the first. */
  lemma {:induction false} FirstOfKindFound(m: Members, keywords: seq<string>, kind: Kind)
    ensures FirstOfKind(m, keywords, kind).Some? <==> exists i :: 0 <= i < |keywords| && HasKindAt(m, keywords[i], kind)
    ensures FirstOfKind(m, keywords, kind).Some? ==>
              exists i :: 0 <= i < |keywords| && Get(m, keywords[i]) == FirstOfKind(m, keywords, kind) &&
                          OfKind(FirstOfKind(m, keywords, kind).value, kind) &&
                          forall j :: 0 <= j < i ==> !HasKindAt(m, keywords[j], kind)
  {
    if keywords != [] && !HasKindAt(m, keywords[0], kind) {
      var r := FirstOfKind(m, keywords[1..], kind);
      FirstOfKindFound(m, keywords[1..], kind);
      if r.Some? {
        var i :| 0 <= i < |keywords[1..]| && Get(m, keywords[1..][i]) == r &&
                 OfKind(r.value, kind) &&
                 forall j :: 0 <= j < i ==> !HasKindAt(m, keywords[1..][j], kind);
        assert keywords[i + 1] == keywords[1..][i];
        forall j | 0 <= j < i + 1 ensures !HasKindAt(m, keywords[j], kind) {
          if j > 0 { assert keywords[j] == keywords[1..][j - 1]; }
        }
      } else {
        forall i | 0 <= i < |keywords| ensures !HasKindAt(m, keywords[i], kind) {
          if i > 0 { assert keywords[i] == keywords[1..][i - 1]; }
        }
      }
    } else if keywords != [] {
      assert Get(m, keywords[0]) == FirstOfKind(m, keywords, kind);
    }
  }

  /** When none of the keywords is present, the lookup finds nothing. */
  lemma {:induction false} FirstOfKindAbsent(m: Members, keywords: seq<string>, kind: Kind)
    requires forall i :: 0 <= i < |keywords| ==> Get(m, keywords[i]).None?
    ensures FirstOfKind(m, keywords, kind) == None
  {
    if keywords != [] {
      FirstOfKindAbsent(m, keywords[1..], kind);
    }
  }

  /** The lookup returns the value of the first keyword present with the wanted kind. */
  lemma {:induction false} FirstOfKindAt(m: Members, keywords: seq<string>, kind: Kind, i: nat)
    requires i < |keywords| && HasKindAt(m, keywords[i], kind)
    requires forall j :: 0 <= j < i ==> !HasKindAt(m, keywords[j], kind)
    ensures FirstOfKind(m, keywords, kind) == Get(m, keywords[i])
  {
    if i > 0 {
      FirstOfKindAt(m, keywords[1..], kind, i - 1);
    }
  }

  /**
   * The loop getString, getObject and getBoolean share: the keywords are
   * tried in order and the first value of the wanted kind is returned.
   */
  method FindOfKind(m: Members, keywords: seq<string>, kind: Kind) returns (r: Option<Json>)
    ensures r == FirstOfKind(m, keywords, kind)
  {
    var i := 0;
    while i < |keywords|
      invariant 0 <= i <= |keywords|
      invariant FirstOfKind(m, keywords, kind) == FirstOfKind(m, keywords[i..], kind)
    {
      if HasKindAt(m, keywords[i], kind) {
        return Get(m, keywords[i]);
      }
      assert keywords[i..][1..] == keywords[i + 1..];
      i := i + 1;
    }
    return None;
  }

  /** Parser::getString */
  function GetString(m: Members, keywords: seq<string>): Option<string> {
    match FirstOfKind(m, keywords, StringKind)
    case Some(JString(s)) => Some(s)
    case _ => None
  }

  /** Parser::getObject */
  function GetObject(m: Members, keywords: seq<string>): Option<Members> {
    match FirstOfKind(m, keywords, ObjectKind)
    case Some(JObject(o)) => Some(o)
    case _ => None
  }

  /** Parser::getBoolean */
  function GetBoolean(m: Members, keywords: seq<string>): Option<bool> {
    match FirstOfKind(m, keywords, BoolKind)
    case Some(JBool(b)) => Some(b)
    case _ => None
  }

  /** `isset($data->key) && is_int($data->key)` */
  function GetInt(m: Members, key: string): Option<int> {
    match Get(m, key)
    case Some(JInt(i)) => Some(i)
    case _ => None
  }

  /** `isset($data->key) && is_array($data->key)`: a JSON list. */
  function GetList(m: Members, key: string): Option<seq<Json>> {
    match Get(m, key)
    case Some(JArray(items)) => Some(items)
    case _ => None
  }

  /** A string lookup over keywords of which at most one is present reads that one. */
  lemma GetStringOnly(m: Members, keywords: seq<string>, i: nat, s: Option<string>)
    requires i < |keywords| && Get(m, keywords[i]) == OptString(s)
    requires forall j :: 0 <= j < |keywords| && j != i ==> Get(m, keywords[j]).None?
    ensures GetString(m, keywords) == s
  {
    if s.Some? {
      FirstOfKindAt(m, keywords, StringKind, i);
    } else {
      FirstOfKindAbsent(m, keywords, StringKind);
    }
  }

  /** An object lookup over keywords of which at most one is present reads that one. */
  lemma GetObjectOnly(m: Members, keywords: seq<string>, i: nat, o: Option<Members>)
    requires i < |keywords| && Get(m, keywords[i]) == OptObject(o)
    requires forall j :: 0 <= j < |keywords| && j != i ==> Get(m, keywords[j]).None?
    ensures GetObject(m, keywords) == o
  {
    if o.Some? {
      FirstOfKindAt(m, keywords, ObjectKind, i);
    } else {
      FirstOfKindAbsent(m, keywords, ObjectKind);
    }
  }

  /** A boolean lookup over keywords of which at most one is present reads that one. */
  lemma GetBooleanOnly(m: Members, keywords: seq<string>, i: nat, b: Option<bool>)
    requires i < |keywords| && Get(m, keywords[i]) == OptBool(b)
    requires forall j :: 0 <= j < |keywords| && j != i ==> Get(m, keywords[j]).None?
    ensures GetBoolean(m, keywords) == b
  {
    if b.Some? {
      FirstOfKindAt(m, keywords, BoolKind, i);
    } else {
      FirstOfKindAbsent(m, keywords, BoolKind);
    }
  }

  /** An object found by getObject is one of the members' values, hence structurally smaller. */
  lemma ObjectIsMember(m: Members, keywords: seq<string>, inner: Members)
    requires GetObject(m, keywords) == Some(inner)
    ensures exists i :: 0 <= i < |m| && m[i].1 == JObject(inner) && m[i] in m
  {
    FirstOfKindFound(m, keywords, ObjectKind);
    var i :| 0 <= i < |keywords| && Get(m, keywords[i]) == Some(JObject(inner));
    GetFirst(m, keywords[i]);
  }

  /** `$array[key] ?? null` read into a `?string` field; a value of another kind is taken as null. */
  function StringEntry(arr: Members, key: string): Option<string> {
    match Get(arr, key)
    case Some(JString(s)) => Some(s)
    case _ => None
  }

  /** `$array[key] ?? null` read into a `?bool` field. */
  function BoolEntry(arr: Members, key: string): Option<bool> {
    match Get(arr, key)
    case Some(JBool(b)) => Some(b)
    case _ => None
  }

  /** `$array[key] ?? null` read into a `?int` field. */
  function IntEntry(arr: Members, key: string): Option<int> {
    match Get(arr, key)
    case Some(JInt(i)) => Some(i)
    case _ => None
  }

  /** `$array[key] ?? null` read into a field holding an object's members. */
  function ObjectEntry(arr: Members, key: string): Option<Members> {
    match Get(arr, key)
    case Some(JObject(m)) => Some(m)
    case _ => None
  }

  /** `$array[key] = value`: replaces the first entry with that key in place, or appends. */
  function Put(arr: Members, key: string, value: Json): (r: Members)
    ensures Get(r, key) == Some(value)
    ensures forall k :: k != key ==> Get(r, k) == Get(arr, k)
  {
    if arr == [] then [(key, value)]
    else if arr[0].0 == key then [(key, value)] + arr[1..]
    else
      var rest := Put(arr[1..], key, value);
      assert ([arr[0]] + rest)[1..] == rest;
      [arr[0]] + rest
  }

  /** Put adds at most one entry, and only the one it was given. */
  lemma {:induction false} PutEntries(arr: Members, key: string, value: Json)
    ensures |Put(arr, key, value)| <= |arr| + 1
    ensures forall e :: e in Put(arr, key, value) ==> e in arr || e == (key, value)
  {
    if arr != [] && arr[0].0 != key {
      PutEntries(arr[1..], key, value);
    }
  }

  /** Put adds its key and keeps every other key. */
  lemma {:induction false} PutKeys(arr: Members, key: string, value: Json)
    ensures key in Keys(Put(arr, key, value))
    ensures forall k :: k in Keys(Put(arr, key, value)) <==> k == key || k in Keys(arr)
  {
    GetFirst(Put(arr, key, value), key);
    forall k ensures k in Keys(Put(arr, key, value)) <==> k == key || k in Keys(arr) {
      GetFirst(Put(arr, key, value), k);
      GetFirst(arr, k);
    }
  }

  /** Putting a key that is not there yet appends it. */
  lemma {:induction false} PutAbsent(arr: Members, key: string, value: Json)
    requires key !in Keys(arr)
    ensures Put(arr, key, value) == arr + [(key, value)]
  {
    if arr != [] {
      assert Keys(arr) == [arr[0].0] + Keys(arr[1..]);
      PutAbsent(arr[1..], key, value);
    }
  }

  function DigitChar(d: nat): char
    requires d < 10
  {
    "0123456789"[d]
  }

  /** The decimal form of a list position, as PHP prints an integer array key. */
  function DecimalString(n: nat): string
  {
    if n < 10 then [DigitChar(n)] else DecimalString(n / 10) + [DigitChar(n % 10)]
  }

  /** The entries of a JSON list keyed by position. */
  function Positional(items: seq<Json>, from: nat): (r: Members)
    ensures |r| == |items|
    ensures forall i :: 0 <= i < |items| ==> r[i] == (DecimalString(from + i), items[i])
    decreases |items|
  {
    if items == [] then [] else [(DecimalString(from), items[0])] + Positional(items[1..], from + 1)
  }

  /**
   * PHP `(array) $value`: an object gives its members, a list its entries by
   * position, null nothing, and a scalar a one-entry list.
   */
  function CastToArray(v: Json): Members {
    match v
    case JObject(m) => m
    case JArray(items) => Positional(items, 0)
    case JNull => []
    case _ => [("0", v)]
  }

  /**
   * One entry when the value is set, none when it is null: a serialiser that
   * `array_filter`s its field list is the concatenation of its fields.
   */
  function Field(key: string, value: Option<Json>): (r: Members)
    ensures forall k :: Get(r, k) == if k == key then value else None
  {
    match value
    case Some(v) => [(key, v)]
    case None => []
  }

  /** The keys of `order` that `m` holds, in the order given: the emission order of a serialiser that skips null fields. */
  function Present(order: seq<string>, m: Members): (r: seq<string>)
    ensures |r| <= |order|
    ensures forall k :: k in r ==> k in order && Get(m, k).Some?
  {
    if order == [] then []
    else (if Get(m, order[0]).Some? then [order[0]] else []) + Present(order[1..], m)
  }

  /** The keys of a concatenation are the keys of its parts, in order. */
  lemma KeysAppend(a: Members, b: Members)
    ensures Keys(a + b) == Keys(a) + Keys(b)
  {
    assert |Keys(a + b)| == |Keys(a) + Keys(b)|;
    forall i | 0 <= i < |a + b| ensures Keys(a + b)[i] == (Keys(a) + Keys(b))[i] {
      if i < |a| { assert (a + b)[i] == a[i]; } else { assert (a + b)[i] == b[i - |a|]; }
    }
  }

  /** A field has its key exactly when it is set. */
  lemma FieldKeys(key: string, value: Option<Json>)
    ensures Keys(Field(key, value)) == if value.Some? then [key] else []
  {
    if value.Some? {
      assert Keys(Field(key, value))[0] == key;
    }
  }

  /** Present over an order with one more key at its end. */
  lemma {:induction false} PresentSnoc(order: seq<string>, k: string, m: Members)
    ensures Present(order + [k], m) == Present(order, m) + (if Get(m, k).Some? then [k] else [])
  {
    if order == [] {
      assert Present([k], m) == (if Get(m, k).Some? then [k] else []) + Present([], m);
    } else {
      assert (order + [k])[1..] == order[1..] + [k];
      PresentSnoc(order[1..], k, m);
    }
  }

  /** Present depends only on the values of the keys in the order. */
  lemma {:induction false} PresentAgree(order: seq<string>, m: Members, n: Members)
    requires forall i :: 0 <= i < |order| ==> Get(m, order[i]) == Get(n, order[i])
    ensures Present(order, m) == Present(order, n)
  {
    if order != [] {
      PresentAgree(order[1..], m, n);
    }
  }

  /**
   * Appending a field whose key comes after every key of the order keeps
   * the keys in that order: the field's key joins them exactly when it is set.
   */
  lemma FieldsInOrder(order: seq<string>, a: Members, key: string, value: Option<Json>)
    requires Keys(a) == Present(order, a) && key !in order
    ensures Keys(a + Field(key, value)) == Present(order + [key], a + Field(key, value))
  {
    var r := a + Field(key, value);
    KeysAppend(a, Field(key, value));
    FieldKeys(key, value);
    GetFirst(a, key);
    GetAppend(a, Field(key, value), key);
    PresentSnoc(order, key, r);
    forall i | 0 <= i < |order| ensures Get(r, order[i]) == Get(a, order[i]) {
      GetAppend(a, Field(key, value), order[i]);
    }
    PresentAgree(order, r, a);
  }

  /** The key/value list a serialiser builds, each value null when its field is unset. */
  type FieldList = seq<(string, Option<Json>)>

  function Names(fs: FieldList): (r: seq<string>)
    ensures |r| == |fs| && forall i :: 0 <= i < |fs| ==> r[i] == fs[i].0
  {
    seq(|fs|, i requires 0 <= i < |fs| => fs[i].0)
  }

  predicate DistinctNames(fs: FieldList) {
    forall i, j :: 0 <= i < j < |fs| ==> fs[i].0 != fs[j].0
  }

  /** `array_filter($fields, fn ($value) => $value !== null)`: the set fields, in the listed order. */
  function Fields(fs: FieldList): Members {
    if fs == [] then [] else Fields(fs[..|fs| - 1]) + Field(fs[|fs| - 1].0, fs[|fs| - 1].1)
  }

  /** A key the list does not name is absent from its fields. */
  lemma {:induction false} FieldsGetAbsent(fs: FieldList, k: string)
    requires k !in Names(fs)
    ensures Get(Fields(fs), k) == None
  {
    if fs != [] {
      var init := fs[..|fs| - 1];
      assert forall i :: 0 <= i < |init| ==> Names(init)[i] == Names(fs)[i];
      FieldsGetAbsent(init, k);
      GetAppend(Fields(init), Field(fs[|fs| - 1].0, fs[|fs| - 1].1), k);
    }
  }

  /** With distinct names, each listed key reads its own value. */
  lemma {:induction false} FieldsGet(fs: FieldList, i: int)
    requires DistinctNames(fs) && 0 <= i < |fs|
    ensures Get(Fields(fs), fs[i].0) == fs[i].1
  {
    var init := fs[..|fs| - 1];
    var last := fs[|fs| - 1];
    GetAppend(Fields(init), Field(last.0, last.1), fs[i].0);
    if i == |fs| - 1 {
      assert forall j :: 0 <= j < |init| ==> Names(init)[j] != last.0;
      FieldsGetAbsent(init, last.0);
    } else {
      FieldsGet(init, i);
    }
  }

  /** With distinct names, the fields' keys are the set ones, in the listed order. */
  lemma {:induction false} FieldsOrder(fs: FieldList)
    requires DistinctNames(fs)
    ensures Keys(Fields(fs)) == Present(Names(fs), Fields(fs))
  {
    if fs != [] {
      var init := fs[..|fs| - 1];
      var last := fs[|fs| - 1];
      assert Names(init) + [last.0] == Names(fs);
      FieldsOrder(init);
      assert forall j :: 0 <= j < |init| ==> Names(init)[j] != last.0;
      FieldsInOrder(Names(init), Fields(init), last.0, last.1);
    } else {
      assert Present(Names(fs), Fields(fs)) == [];
    }
  }

  /** A nullable string field as the JSON value PHP would serialise (null stays unset). */
  function OptString(o: Option<string>): Option<Json> {
    match o
    case Some(s) => Some(JString(s))
    case None => None
  }

  function OptBool(o: Option<bool>): Option<Json> {
    match o
    case Some(b) => Some(JBool(b))
    case None => None
  }

  function OptInt(o: Option<int>): Option<Json> {
    match o
    case Some(i) => Some(JInt(i))
    case None => None
  }

  /** A nullable associative array field, serialised as an object. */
  function OptObject(o: Option<Members>): Option<Json> {
    match o
    case Some(m) => Some(JObject(m))
    case None => None
  }

  /** A nullable list field, serialised as a JSON list. */
  function OptList(o: Option<seq<Json>>): Option<Json> {
    match o
    case Some(items) => Some(JArray(items))
    case None => None
  }

  /** A field serialised from a nullable string reads back as that string. */
  lemma StringEntryReads(m: Members, key: string, o: Option<string>)
    requires Get(m, key) == OptString(o)
    ensures StringEntry(m, key) == o
  {
  }

  /** A field serialised from a nullable integer reads back as that integer. */
  lemma IntEntryReads(m: Members, key: string, o: Option<int>)
    requires Get(m, key) == OptInt(o)
    ensures IntEntry(m, key) == o
  {
  }

  /** A field serialised from a nullable list reads back as that list. */
  lemma ListEntryReads(m: Members, key: string, o: Option<seq<Json>>)
    requires Get(m, key) == OptList(o)
    ensures GetList(m, key) == o
  {
  }

  /** A field serialised from a nullable boolean reads back as that boolean. */
  lemma BoolEntryReads(m: Members, key: string, o: Option<bool>)
    requires Get(m, key) == OptBool(o)
    ensures BoolEntry(m, key) == o
  {
  }

  /** A field serialised from a nullable object reads back as that object's members. */
  lemma ObjectEntryReads(m: Members, key: string, o: Option<Members>)
    requires Get(m, key) == OptObject(o)
    ensures ObjectEntry(m, key) == o
  {
  }
}
