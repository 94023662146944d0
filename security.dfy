/** The `Security` record of the editor document (src/Model/Security.php). */
module SecurityModel {
  import opened Wrappers
  import opened JsonTree

  /** The fields of a security scheme; `kind` is the source's `type`, `location` its `in`. */
  datatype SecurityData = SecurityData(
    kind: Option<string>,
    name: Option<string>,
    location: Option<string>,
    tokenUrl: Option<string>,
    authorizationUrl: Option<string>,
    scopes: Option<seq<Json>>)

  /** `array_keys((array) $object)`: the member names in order, as JSON strings. */
  function KeyList(m: Members): (r: seq<Json>)
    ensures |r| == |m|
    ensures forall i :: 0 <= i < |m| ==> r[i] == JString(m[i].0)
  {
    seq(|m|, i requires 0 <= i < |m| => JString(m[i].0))
  }

  /** The constructor's scopes: an object becomes the list of its keys, a list is kept, anything else is null. */
  function ScopesEntry(security: Members): (r: Option<seq<Json>>)
    ensures Get(security, "scopes").Some? && Get(security, "scopes").value.JObject? ==>
            r == Some(KeyList(Get(security, "scopes").value.members))
    ensures Get(security, "scopes").Some? && Get(security, "scopes").value.JArray? ==>
            r == Some(Get(security, "scopes").value.items)
    ensures r.Some? ==>
              Get(security, "scopes").Some? &&
              (Get(security, "scopes").value.JObject? || Get(security, "scopes").value.JArray?)
  {
    match Get(security, "scopes")
    case Some(JObject(m)) => Some(KeyList(m))
    case Some(JArray(items)) => Some(items)
    case _ => None
  }

  /** The constructor: each field from its key, null when missing. */
  function SecurityFromArray(security: Members): (r: SecurityData)
    ensures Get(security, "type").None? ==> r.kind.None?
    ensures Get(security, "type").Some? && Get(security, "type").value.JString? ==> r.kind == Some(Get(security, "type").value.s)
    ensures Get(security, "name").None? ==> r.name.None?
    ensures Get(security, "name").Some? && Get(security, "name").value.JString? ==> r.name == Some(Get(security, "name").value.s)
    ensures Get(security, "in").None? ==> r.location.None?
    ensures Get(security, "in").Some? && Get(security, "in").value.JString? ==> r.location == Some(Get(security, "in").value.s)
    ensures Get(security, "tokenUrl").None? ==> r.tokenUrl.None?
    ensures Get(security, "tokenUrl").Some? && Get(security, "tokenUrl").value.JString? ==> r.tokenUrl == Some(Get(security, "tokenUrl").value.s)
    ensures Get(security, "authorizationUrl").None? ==> r.authorizationUrl.None?
    ensures Get(security, "authorizationUrl").Some? && Get(security, "authorizationUrl").value.JString? ==> r.authorizationUrl == Some(Get(security, "authorizationUrl").value.s)
    ensures r.scopes == ScopesEntry(security)
  {
    SecurityData(
      StringEntry(security, "type"),
      StringEntry(security, "name"),
      StringEntry(security, "in"),
      StringEntry(security, "tokenUrl"),
      StringEntry(security, "authorizationUrl"),
      ScopesEntry(security))
  }

  /** The value `jsonSerialize` reports under `key`: the field of that name, or nothing. */
  function SecurityValue(s: SecurityData, key: string): Option<Json> {
    if key == "type" then OptString(s.kind)
    else if key == "name" then OptString(s.name)
    else if key == "in" then OptString(s.location)
    else if key == "tokenUrl" then OptString(s.tokenUrl)
    else if key == "authorizationUrl" then OptString(s.authorizationUrl)
    else if key == "scopes" then OptList(s.scopes)
    else None
  }

  /** The keys `jsonSerialize` can emit, in the order it emits them. */
  const SECURITY_KEYS: seq<string> := ["type", "name", "in", "tokenUrl", "authorizationUrl", "scopes"]

  /** The key/value list jsonSerialize filters, in declaration order. */
  function SecurityFields(s: SecurityData): FieldList {
    [("type", OptString(s.kind)), ("name", OptString(s.name)), ("in", OptString(s.location)), ("tokenUrl", OptString(s.tokenUrl)), ("authorizationUrl", OptString(s.authorizationUrl)), ("scopes", OptList(s.scopes))]
  }

  /** jsonSerialize: the non-null fields, under their names, in declaration order. */
  function SecurityToArray(s: SecurityData): (r: Members)
    ensures forall k :: Get(r, k) == SecurityValue(s, k)
    ensures Keys(r) == Present(SECURITY_KEYS, r)
  {
    var fs := SecurityFields(s);
    assert Names(fs) == SECURITY_KEYS;
    FieldsOrder(fs);
    assert forall k :: Get(Fields(fs), k) == SecurityValue(s, k) by {
      forall k ensures Get(Fields(fs), k) == SecurityValue(s, k) {
        SecurityToArrayGet(s, k);
      }
    }
    Fields(fs)
  }

  lemma SecurityToArrayGet(s: SecurityData, k: string)
    ensures Get(Fields(SecurityFields(s)), k) == SecurityValue(s, k)
  {
    var fs := SecurityFields(s);
    if k in SECURITY_KEYS {
      var i :| 0 <= i < |SECURITY_KEYS| && SECURITY_KEYS[i] == k;
      FieldsGet(fs, i);
    } else {
      assert Names(fs) == SECURITY_KEYS;
      FieldsGetAbsent(fs, k);
    }
  }

  /** Serialising a security scheme and constructing one from the result gives it back. */
  lemma SecurityArrayRoundTrip(s: SecurityData)
    ensures SecurityFromArray(SecurityToArray(s)) == s
  {
    SecurityNamesRoundTrip(s);
    SecurityFlowRoundTrip(s);
  }

  lemma SecurityNamesRoundTrip(s: SecurityData)
    ensures StringEntry(SecurityToArray(s), "type") == s.kind
    ensures StringEntry(SecurityToArray(s), "name") == s.name
    ensures StringEntry(SecurityToArray(s), "in") == s.location
  {
    var arr := SecurityToArray(s);
    assert Get(arr, "type") == SecurityValue(s, "type");
    assert Get(arr, "name") == SecurityValue(s, "name");
    assert Get(arr, "in") == SecurityValue(s, "in");
  }

  lemma SecurityFlowRoundTrip(s: SecurityData)
    ensures StringEntry(SecurityToArray(s), "tokenUrl") == s.tokenUrl
    ensures StringEntry(SecurityToArray(s), "authorizationUrl") == s.authorizationUrl
    ensures ScopesEntry(SecurityToArray(s)) == s.scopes
  {
    var arr := SecurityToArray(s);
    assert Get(arr, "tokenUrl") == SecurityValue(s, "tokenUrl");
    assert Get(arr, "authorizationUrl") == SecurityValue(s, "authorizationUrl");
    assert Get(arr, "scopes") == SecurityValue(s, "scopes");
  }

  /** Security: a mutable record whose setters each change one field. */
  class Security {
    var kind: Option<string>
    var name: Option<string>
    var location: Option<string>
    var tokenUrl: Option<string>
    var authorizationUrl: Option<string>
    var scopes: Option<seq<Json>>

    function Data(): SecurityData
      reads this
    {
      SecurityData(kind, name, location, tokenUrl, authorizationUrl, scopes)
    }

    constructor (security: Members)
      ensures Data() == SecurityFromArray(security)
    {
      kind := StringEntry(security, "type");
      name := StringEntry(security, "name");
      location := StringEntry(security, "in");
      tokenUrl := StringEntry(security, "tokenUrl");
      authorizationUrl := StringEntry(security, "authorizationUrl");
      scopes := ScopesEntry(security);
    }

    method SetType(kind: Option<string>)
      modifies this
      ensures Data() == old(Data()).(kind := kind)
    {
      this.kind := kind;
    }

    method SetName(name: Option<string>)
      modifies this
      ensures Data() == old(Data()).(name := name)
    {
      this.name := name;
    }

    method SetIn(location: Option<string>)
      modifies this
      ensures Data() == old(Data()).(location := location)
    {
      this.location := location;
    }

    method SetTokenUrl(tokenUrl: Option<string>)
      modifies this
      ensures Data() == old(Data()).(tokenUrl := tokenUrl)
    {
      this.tokenUrl := tokenUrl;
    }

    method SetAuthorizationUrl(authorizationUrl: Option<string>)
      modifies this
      ensures Data() == old(Data()).(authorizationUrl := authorizationUrl)
    {
      this.authorizationUrl := authorizationUrl;
    }

    method SetScopes(scopes: Option<seq<Json>>)
      modifies this
      ensures Data() == old(Data()).(scopes := scopes)
    {
      this.scopes := scopes;
    }

    function JsonSerialize(): (r: Members)
      reads this
      ensures forall k :: Get(r, k) == SecurityValue(Data(), k)
      ensures Keys(r) == Present(SECURITY_KEYS, r)
    {
      SecurityToArray(Data())
    }
  }
}
