/** The `XPackSecurityUser` struct and the JSON object `json.Marshal` makes
    of it: the struct tags name the keys and `omitempty` drops a field whose
    value is empty (an empty string, `false`, a nil interface). */
module Wire {

  /** The `Metadata interface{}` field: nil, or a JSON document (held as
      its text; on a put it is the parsed configuration string, on a get the
      re-marshalled server object). */
  datatype Metadata = NoMetadata | Document(json: string)

  datatype SecurityUser = SecurityUser(
    username: string,
    roles: seq<string>,
    fullname: string,
    email: string,
    metadata: Metadata,
    enabled: bool,
    password: string,
    passwordHash: string)

  /** `XPackSecurityUser{}`: every field at its zero value. */
  const ZERO_USER: SecurityUser := SecurityUser("", [], "", "", NoMetadata, false, "", "")

  datatype WireValue =
    | JString(s: string)
    | JStrings(items: seq<string>)
    | JBool(b: bool)
    | JDocument(json: string)

  /** A JSON object: key order carries no meaning. */
  type Body = map<string, WireValue>

  /** The eight JSON keys of the struct tags. */
  const KEYS: set<string> :=
    {"username", "roles", "full_name", "email", "metadata", "enabled", "password", "password_hash"}

  /** `json.Marshal` of the struct: `username` and `roles` always, every
      other field only when it is not empty. */
  function Encode(u: SecurityUser): (body: Body)
    ensures body.Keys <= KEYS
    ensures "username" in body && body["username"] == JString(u.username)
    ensures "roles" in body && body["roles"] == JStrings(u.roles)
    ensures "full_name" in body <==> u.fullname != ""
    ensures "email" in body <==> u.email != ""
    ensures "metadata" in body <==> u.metadata != NoMetadata
    ensures "enabled" in body <==> u.enabled
    ensures "password" in body <==> u.password != ""
    ensures "password_hash" in body <==> u.passwordHash != ""
  {
    var body := map["username" := JString(u.username), "roles" := JStrings(u.roles)];
    var body := if u.fullname != "" then body["full_name" := JString(u.fullname)] else body;
    var body := if u.email != "" then body["email" := JString(u.email)] else body;
    var body := if u.metadata.Document? then body["metadata" := JDocument(u.metadata.json)] else body;
    var body := if u.enabled then body["enabled" := JBool(true)] else body;
    var body := if u.password != "" then body["password" := JString(u.password)] else body;
    var body := if u.passwordHash != "" then body["password_hash" := JString(u.passwordHash)] else body;
    body
  }

  /** The string a key holds, or "" when the key is absent (or not a string). */
  function StringAt(body: Body, key: string): string
  {
    if key in body && body[key].JString? then body[key].s else ""
  }

  /** How a reader of the body (`json.Unmarshal` into the same struct) sees
      it: an absent key leaves the field at its zero value. */
  function Decode(body: Body): (u: SecurityUser)
    ensures "password" !in body ==> u.password == ""
    ensures "password_hash" !in body ==> u.passwordHash == ""
    ensures "enabled" !in body ==> !u.enabled
  {
    SecurityUser(
      StringAt(body, "username"),
      if "roles" in body && body["roles"].JStrings? then body["roles"].items else [],
      StringAt(body, "full_name"),
      StringAt(body, "email"),
      if "metadata" in body && body["metadata"].JDocument? then Document(body["metadata"].json) else NoMetadata,
      "enabled" in body && body["enabled"].JBool? && body["enabled"].b,
      StringAt(body, "password"),
      StringAt(body, "password_hash"))
  }

  /** Decoding with a zero-filling reader gives back the struct: every
      omitted field is one whose value is the zero value such a reader fills
      in.  A reader that applies other defaults (the resource's schema
      defaults `enabled` to true) does not get the struct back for a
      disabled user, whose body omits `enabled`. */
  lemma DecodeEncode(u: SecurityUser)
    ensures Decode(Encode(u)) == u
  {
  }
}
