/** The per-library adapters and the three dispatchers that pick one of
    them by the client's concrete type.  The cluster is an oracle: a
    `Cluster` value says what each transport request answers.  Every
    adapter result records the requests it sent, so that "never touches the
    client" is something a contract can say. */
module Adapters {
  import opened Wrappers
  import opened Errors
  import opened Wire

  /** The concrete type `getClient` handed back. */
  datatype Family = V7 | V6 | V5 | Other

  /** One entry of the get-user response.  The metadata object is known only
      by what `json.Marshal` makes of it: its text, or the message of the
      marshal error (an `encoding/json` error, which is a plain error). */
  datatype UserEntry = UserEntry(
    roles: seq<string>,
    fullname: string,
    email: string,
    enabled: bool,
    metadata: Result<string, string>)

  /** The zero entry a Go map lookup yields for a missing key; its nil
      metadata marshals to `null`. */
  const ZERO_ENTRY: UserEntry := UserEntry([], "", "", false, Success("null"))

  /** The response to a get-user request, keyed by user name. */
  type UsersResponse = map<string, UserEntry>

  /** What the cluster answers to each kind of request (`Do` returning an
      error or not). */
  datatype Cluster = Cluster(
    putReply: Option<Error>,
    getReply: Result<UsersResponse, Error>,
    deleteReply: Option<Error>)

  /** A request that reached the transport. */
  datatype Request =
    | PutUserRequest(name: string, body: Body)
    | GetUserRequest(name: string)
    | DeleteUserRequest(name: string)

  /** A result together with the requests sent to produce it. */
  datatype Call<+T> = Call(result: T, sent: seq<Request>)

  type Fetched = (SecurityUser, Option<Error>)

  /** `(*res)[name]`. */
  function EntryFor(res: UsersResponse, name: string): UserEntry
  {
    if name in res then res[name] else ZERO_ENTRY
  }

  // ---- put ----

  function Elastic5PutUser(c: Cluster, name: string, body: Body): (r: Call<Option<Error>>)
    ensures r.result == Some(UNSUPPORTED_IN_V5) && r.sent == []
  {
    Call(Some(UNSUPPORTED_IN_V5), [])
  }

  function Elastic6PutUser(c: Cluster, name: string, body: Body): (r: Call<Option<Error>>)
    ensures r.result == c.putReply && r.sent == [PutUserRequest(name, body)]
  {
    Call(c.putReply, [PutUserRequest(name, body)])
  }

  function Elastic7PutUser(c: Cluster, name: string, body: Body): (r: Call<Option<Error>>)
    ensures r.result == c.putReply && r.sent == [PutUserRequest(name, body)]
  {
    Call(c.putReply, [PutUserRequest(name, body)])
  }

  // ---- get ----

  function Elastic5GetUser(c: Cluster, name: string): (r: Call<Fetched>)
    ensures r.result == (ZERO_USER, Some(UNSUPPORTED_IN_V5)) && r.sent == []
  {
    Call((ZERO_USER, Some(UNSUPPORTED_IN_V5)), [])
  }

  /** The v6 and v7 get adapters have the same body: send the request; on a
      transport error return a zero user with it; otherwise build the user
      field by field from the entry under `name`, and finally marshal the
      metadata, whose failure is returned beside the user built so far. */
  function FetchUser(c: Cluster, name: string): (r: Call<Fetched>)
    ensures r.sent == [GetUserRequest(name)]
    ensures c.getReply.Failure? ==> r.result == (ZERO_USER, Some(c.getReply.error))
    ensures c.getReply.Success? ==>
      var obj := EntryFor(c.getReply.value, name);
      var user := r.result.0;
      && user.username == name
      && user.roles == obj.roles && user.fullname == obj.fullname
      && user.email == obj.email && user.enabled == obj.enabled
      && user.password == "" && user.passwordHash == ""
      && (r.result.1.None? <==> obj.metadata.Success?)
      && (obj.metadata.Failure? ==> r.result.1 == Some(Plain(obj.metadata.error)) && user.metadata == NoMetadata)
      && (obj.metadata.Success? ==> user.metadata == Document(obj.metadata.value))
  {
    var sent := [GetUserRequest(name)];
    match c.getReply
    case Failure(err) => Call((ZERO_USER, Some(err)), sent)
    case Success(res) =>
      var obj := EntryFor(res, name);
      var user := ZERO_USER;
      var user := user.(username := name);
      var user := user.(roles := obj.roles);
      var user := user.(fullname := obj.fullname);
      var user := user.(email := obj.email);
      var user := user.(enabled := obj.enabled);
      match obj.metadata
      case Failure(msg) => Call((user, Some(Plain(msg))), sent)
      case Success(text) => Call((user.(metadata := Document(text)), None), sent)
  }

  function Elastic6GetUser(c: Cluster, name: string): (r: Call<Fetched>)
    ensures r == FetchUser(c, name)
  {
    FetchUser(c, name)
  }

  function Elastic7GetUser(c: Cluster, name: string): (r: Call<Fetched>)
    ensures r == FetchUser(c, name)
  {
    FetchUser(c, name)
  }

  // ---- delete ----

  function Elastic5DeleteUser(c: Cluster, name: string): (r: Call<Option<Error>>)
    ensures r.result == Some(UNSUPPORTED_IN_V5) && r.sent == []
  {
    Call(Some(UNSUPPORTED_IN_V5), [])
  }

  function Elastic6DeleteUser(c: Cluster, name: string): (r: Call<Option<Error>>)
    ensures r.result == c.deleteReply && r.sent == [DeleteUserRequest(name)]
  {
    Call(c.deleteReply, [DeleteUserRequest(name)])
  }

  function Elastic7DeleteUser(c: Cluster, name: string): (r: Call<Option<Error>>)
    ensures r.result == c.deleteReply && r.sent == [DeleteUserRequest(name)]
  {
    Call(c.deleteReply, [DeleteUserRequest(name)])
  }

  // ---- dispatch ----

  /** A client that reaches the transport: v7 or v6. */
  predicate Transports(client: Result<Family, Error>)
  {
    client == Success(V7) || client == Success(V6)
  }

  /** The error a dispatcher returns without calling any transport: the
      `getClient` error, the v5 refusal, or the unknown-client error. */
  function LocalError(client: Result<Family, Error>): Error
    requires !Transports(client)
  {
    match client
    case Failure(err) => err
    case Success(V5) => UNSUPPORTED_IN_V5
    case Success(_) => UNHANDLED_CLIENT_TYPE
  }

  function XpackPutUser(client: Result<Family, Error>, c: Cluster, name: string, body: Body): (r: Call<Option<Error>>)
    ensures client == Success(V7) ==> r == Elastic7PutUser(c, name, body)
    ensures client == Success(V6) ==> r == Elastic6PutUser(c, name, body)
    ensures client == Success(V5) ==> r == Elastic5PutUser(c, name, body)
    ensures Transports(client) ==> r == Call(c.putReply, [PutUserRequest(name, body)])
    ensures !Transports(client) ==> r == Call(Some(LocalError(client)), [])
  {
    match client
    case Failure(err) => Call(Some(err), [])
    case Success(V7) => Elastic7PutUser(c, name, body)
    case Success(V6) => Elastic6PutUser(c, name, body)
    case Success(V5) => Elastic5PutUser(c, name, body)
    case Success(Other) => Call(Some(UNHANDLED_CLIENT_TYPE), [])
  }

  function XpackGetUser(client: Result<Family, Error>, c: Cluster, name: string): (r: Call<Fetched>)
    ensures client == Success(V7) ==> r == Elastic7GetUser(c, name)
    ensures client == Success(V6) ==> r == Elastic6GetUser(c, name)
    ensures client == Success(V5) ==> r == Elastic5GetUser(c, name)
    ensures Transports(client) ==> r == FetchUser(c, name)
    ensures !Transports(client) ==> r == Call((ZERO_USER, Some(LocalError(client))), [])
  {
    match client
    case Failure(err) => Call((ZERO_USER, Some(err)), [])
    case Success(V7) => Elastic7GetUser(c, name)
    case Success(V6) => Elastic6GetUser(c, name)
    case Success(V5) => Elastic5GetUser(c, name)
    case Success(Other) => Call((ZERO_USER, Some(UNHANDLED_CLIENT_TYPE)), [])
  }

  function XpackDeleteUser(client: Result<Family, Error>, c: Cluster, name: string): (r: Call<Option<Error>>)
    ensures client == Success(V7) ==> r == Elastic7DeleteUser(c, name)
    ensures client == Success(V6) ==> r == Elastic6DeleteUser(c, name)
    ensures client == Success(V5) ==> r == Elastic5DeleteUser(c, name)
    ensures Transports(client) ==> r == Call(c.deleteReply, [DeleteUserRequest(name)])
    ensures !Transports(client) ==> r == Call(Some(LocalError(client)), [])
  {
    match client
    case Failure(err) => Call(Some(err), [])
    case Success(V7) => Elastic7DeleteUser(c, name)
    case Success(V6) => Elastic6DeleteUser(c, name)
    case Success(V5) => Elastic5DeleteUser(c, name)
    case Success(Other) => Call(Some(UNHANDLED_CLIENT_TYPE), [])
  }

  /** A v5 client or an unknown one never reaches the cluster: whatever the
      cluster would answer, every operation gives the same local error and
      sends nothing. */
  lemma NoTransportIgnoresCluster(client: Result<Family, Error>, c1: Cluster, c2: Cluster, name: string, body: Body)
    requires !Transports(client)
    ensures XpackPutUser(client, c1, name, body) == XpackPutUser(client, c2, name, body)
    ensures XpackGetUser(client, c1, name) == XpackGetUser(client, c2, name)
    ensures XpackDeleteUser(client, c1, name) == XpackDeleteUser(client, c2, name)
    ensures XpackPutUser(client, c1, name, body).sent == []
    ensures XpackGetUser(client, c1, name).sent == []
    ensures XpackDeleteUser(client, c1, name).sent == []
  {
  }
}
