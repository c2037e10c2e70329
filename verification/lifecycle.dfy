/** The four handlers of the user resource as functions of the resource's
    local record, plus what runs of them preserve.  `Env` collects
    everything outside the record: the outcome of `getClient`, the cluster's
    replies, `optionalInterfaceJson` (which turns the metadata string into
    the body's metadata value; left uninterpreted), whether `json.Marshal`
    of the put body succeeds, and the client libraries' not-found
    predicates. */
module Lifecycle {
  import opened Wrappers
  import opened Errors
  import opened Wire
  import opened Adapters

  /** The local record (`schema.ResourceData`): the identity (`d.Id()`),
      the user fields, and the attributes the plan marks as changed
      (`d.HasChange`). */
  datatype State = State(
    id: string,
    username: string,
    roles: seq<string>,
    fullname: string,
    email: string,
    enabled: bool,
    metadata: string,
    password: string,
    passwordHash: string,
    changed: set<string>)

  datatype Env = Env(
    client: Result<Family, Error>,
    cluster: Cluster,
    optionalJson: string -> Metadata,
    bodyMarshals: bool,
    notFound: NotFoundPredicates)

  /** What a handler leaves behind: the new record, the error it returns
      (None for nil) and the requests it sent, in order. */
  datatype Outcome = Outcome(state: State, err: Option<Error>, sent: seq<Request>)

  /** The metadata value Read stores in the record. */
  function MetadataText(m: Metadata): string
  {
    match m
    case NoMetadata => ""
    case Document(text) => text
  }

  /** The struct the put body is marshalled from: the record's user
      fields, with the password and the password hash only when the plan
      changed them. */
  function PutUser(s: State, optionalJson: string -> Metadata): SecurityUser
  {
    SecurityUser(s.username, s.roles, s.fullname, s.email, optionalJson(s.metadata), s.enabled,
                 if "password" in s.changed then s.password else "",
                 if "password_hash" in s.changed then s.passwordHash else "")
  }

  /** `buildPutUserBody`: the user fields of the record, with the password
      and the password hash only when the plan changed them, marshalled with
      the struct's omission rules. */
  function BuildPutUserBody(s: State, optionalJson: string -> Metadata, marshals: bool): (r: Result<Body, Error>)
    ensures r.Failure? <==> !marshals
    ensures r.Failure? ==> r.error == BODY_ERROR
    ensures r.Success? ==> r.value.Keys <= KEYS
    ensures r.Success? ==> Decode(r.value) == PutUser(s, optionalJson)
    ensures r.Success? ==> ("password" in r.value <==> "password" in s.changed && s.password != "")
    ensures r.Success? ==> ("password_hash" in r.value <==> "password_hash" in s.changed && s.passwordHash != "")
    ensures r.Success? && "password" in r.value ==> r.value["password"] == JString(s.password)
    ensures r.Success? && "password_hash" in r.value ==> r.value["password_hash"] == JString(s.passwordHash)
    ensures r.Success? ==> "username" in r.value && r.value["username"] == JString(s.username)
    ensures r.Success? ==> "roles" in r.value && r.value["roles"] == JStrings(s.roles)
    ensures r.Success? ==> ("full_name" in r.value <==> s.fullname != "")
    ensures r.Success? && "full_name" in r.value ==> r.value["full_name"] == JString(s.fullname)
    ensures r.Success? ==> ("email" in r.value <==> s.email != "")
    ensures r.Success? && "email" in r.value ==> r.value["email"] == JString(s.email)
    ensures r.Success? ==> ("metadata" in r.value <==> optionalJson(s.metadata).Document?)
    ensures r.Success? && "metadata" in r.value ==> r.value["metadata"] == JDocument(optionalJson(s.metadata).json)
    ensures r.Success? ==> ("enabled" in r.value <==> s.enabled)
    ensures r.Success? && "enabled" in r.value ==> r.value["enabled"] == JBool(true)
  {
    var user := PutUser(s, optionalJson);
    if marshals then
      DecodeEncode(user);
      Success(Encode(user))
    else Failure(BODY_ERROR)
  }

  /** The error the get dispatcher returns for `name`. */
  function GetError(env: Env, name: string): Option<Error>
  {
    XpackGetUser(env.client, env.cluster, name).result.1
  }

  /** The record after a successful read of entry `e` under the record's id. */
  function Refreshed(s: State, e: UserEntry): State
    requires e.metadata.Success?
  {
    s.(username := s.id, roles := e.roles, fullname := e.fullname, email := e.email,
       metadata := e.metadata.value, enabled := e.enabled)
  }

  /** `resourceElasticsearchXpackUserRead`. */
  function Read(s: State, env: Env): (r: Outcome)
    ensures r.sent == if Transports(env.client) then [GetUserRequest(s.id)] else []
    ensures r.state.password == s.password && r.state.passwordHash == s.passwordHash
    ensures r.state.changed == s.changed
    ensures r.state.id == s.id || (r.state.id == "" && r.err == None)
    ensures r.err.Some? ==> r.state == s && !IsNotFound(r.err.value, env.notFound)
    ensures GetError(env, s.id).Some? && IsNotFound(GetError(env, s.id).value, env.notFound) ==>
      r.state == s.(id := "") && r.err == None
    ensures GetError(env, s.id).Some? && !IsNotFound(GetError(env, s.id).value, env.notFound) ==>
      r.state == s && r.err == GetError(env, s.id)
    ensures GetError(env, s.id).None? ==>
      && Transports(env.client) && env.cluster.getReply.Success?
      && var e := EntryFor(env.cluster.getReply.value, s.id);
      && e.metadata.Success? && r.err == None && r.state == Refreshed(s, e)
  {
    var got := XpackGetUser(env.client, env.cluster, s.id);
    var (user, err) := got.result;
    if err.Some? then
      if IsNotFound(err.value, env.notFound) then Outcome(s.(id := ""), None, got.sent)
      else Outcome(s, err, got.sent)
    else
      var s' := s.(username := user.username, roles := user.roles, fullname := user.fullname, email := user.email);
      Outcome(s'.(metadata := MetadataText(user.metadata), enabled := user.enabled), None, got.sent)
  }

  /** The error the put dispatcher returns for a body. */
  function PutError(env: Env, name: string, body: Body): Option<Error>
  {
    XpackPutUser(env.client, env.cluster, name, body).result
  }

  /** The common part of Create and Update: build the body, put it under
      the configured user name, and once both succeeded read `next` back. */
  function BuildAndPut(s: State, env: Env, next: State): (r: Outcome)
    ensures !env.bodyMarshals ==> r == Outcome(s, Some(BODY_ERROR), [])
    ensures env.bodyMarshals ==>
      var put := XpackPutUser(env.client, env.cluster, s.username, BuildPutUserBody(s, env.optionalJson, true).value);
      && (put.result.Some? ==> r == Outcome(s, put.result, put.sent))
      && (put.result.None? ==>
            && put.sent == [PutUserRequest(s.username, BuildPutUserBody(s, env.optionalJson, true).value)]
            && r == Outcome(Read(next, env).state, Read(next, env).err, put.sent + Read(next, env).sent))
    ensures r.state != s ==> env.bodyMarshals && Transports(env.client) && env.cluster.putReply == None
  {
    match BuildPutUserBody(s, env.optionalJson, env.bodyMarshals)
    case Failure(err) => Outcome(s, Some(err), [])
    case Success(body) =>
      var put := XpackPutUser(env.client, env.cluster, s.username, body);
      if put.result.Some? then Outcome(s, put.result, put.sent)
      else
        var read := Read(next, env);
        Outcome(read.state, read.err, put.sent + read.sent)
  }

  /** `resourceElasticsearchXpackUserCreate`: the identity becomes the user
      name only once the body is built and the put succeeded, and then the
      handler is the Read of the record under that identity. */
  function Create(s: State, env: Env): (r: Outcome)
    ensures r.state != s ==> env.bodyMarshals && Transports(env.client) && env.cluster.putReply == None
    ensures r.state.id in {s.id, s.username, ""}
    ensures r.err.Some? ==> r.state == s || r.state == s.(id := s.username)
    ensures !env.bodyMarshals ==> r == Outcome(s, Some(BODY_ERROR), [])
    ensures env.bodyMarshals && PutError(env, s.username, BuildPutUserBody(s, env.optionalJson, true).value).Some? ==>
      r.state == s && r.err == PutError(env, s.username, BuildPutUserBody(s, env.optionalJson, true).value)
    ensures env.bodyMarshals && PutError(env, s.username, BuildPutUserBody(s, env.optionalJson, true).value).None? ==>
      && r.state == Read(s.(id := s.username), env).state
      && r.err == Read(s.(id := s.username), env).err
    ensures env.bodyMarshals ==>
      var put := XpackPutUser(env.client, env.cluster, s.username, BuildPutUserBody(s, env.optionalJson, true).value);
      && (put.result.Some? ==> r.sent == put.sent)
      && (put.result.None? ==> r.sent == put.sent + Read(s.(id := s.username), env).sent)
  {
    BuildAndPut(s, env, s.(id := s.username))
  }

  /** `resourceElasticsearchXpackUserUpdate`: the same put, under the
      configured user name, followed by a Read under the existing identity,
      which it never changes except for the Read's not-found clearing. */
  function Update(s: State, env: Env): (r: Outcome)
    ensures r.state.id == s.id || (r.state.id == "" && r.err == None)
    ensures r.err.Some? ==> r.state == s
    ensures !env.bodyMarshals ==> r == Outcome(s, Some(BODY_ERROR), [])
    ensures env.bodyMarshals && PutError(env, s.username, BuildPutUserBody(s, env.optionalJson, true).value).Some? ==>
      r.state == s && r.err == PutError(env, s.username, BuildPutUserBody(s, env.optionalJson, true).value)
    ensures env.bodyMarshals && PutError(env, s.username, BuildPutUserBody(s, env.optionalJson, true).value).None? ==>
      && r.state == Read(s, env).state
      && r.err == Read(s, env).err
    ensures env.bodyMarshals ==>
      var put := XpackPutUser(env.client, env.cluster, s.username, BuildPutUserBody(s, env.optionalJson, true).value);
      && (put.result.Some? ==> r.sent == put.sent)
      && (put.result.None? ==> r.sent == put.sent + Read(s, env).sent)
  {
    BuildAndPut(s, env, s)
  }

  /** `resourceElasticsearchXpackUserDelete`: whatever the delete request
      answers (success, not found, unsupported or any other error), the
      identity is cleared and nil is returned. */
  function Delete(s: State, env: Env): (r: Outcome)
    ensures r.state.id == "" && r.err == None
    ensures r.state == s.(id := "")
    ensures r.sent == if Transports(env.client) then [DeleteUserRequest(s.id)] else []
  {
    var del := XpackDeleteUser(env.client, env.cluster, s.id);
    Outcome(s.(id := ""), None, del.sent)
  }
}
