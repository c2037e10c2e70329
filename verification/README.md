# Elasticsearch X-Pack security user resource: a Dafny model

This project models the core of the Terraform provider's
`elasticsearch_xpack_user` resource (`es/resource_elasticsearch_xpack_user.go`):
the Create, Read, Update and Delete handlers and how they change the
resource record. It also models the put body built from that record,
the dispatch over the v7, v6 and v5 `olivere/elastic` clients, the
per-library adapters, and the "not found" classification of errors.

The cluster is an oracle. A `Cluster` value says what each put, get and delete
request answers. An `Env` value holds everything else the handlers meet: what
`getClient` returned, `optionalInterfaceJson` (which turns the metadata string
into the body's metadata value), whether `json.Marshal` of the put body
succeeds, and the three libraries' `IsNotFound` functions. `optionalInterfaceJson`
and the `IsNotFound` functions are left uninterpreted, so every result holds for
any choice of them. Each adapter records the requests
it actually sent. This lets a contract say that a v5 client, or a client of no
known library, never reaches the cluster.

Modules:
- `Errors`: library errors and plain errors, the constant error texts, and the not-found classification.
- `Wire`: the `XPackSecurityUser` struct and its JSON object, with the `omitempty` rules.
- `Adapters`: the nine per-library adapters and the three dispatchers.
- `Lifecycle`: the handlers as functions of the record, with what each promises.
- `Properties`: the v5 and unknown-client paths, and what any run of handlers preserves.
- `Resource`: the class `ResourceData`. Its methods update the record step by step, as the handlers do, and each is proved to end where the matching `Lifecycle` function says.

Behaviour of the code worth knowing. The model follows the code in each case:
- Delete returns nil for every delete outcome, other errors included (lines 150-173). It never surfaces an error.
- Read and Delete classify an error by its type. The error is tested against all three libraries' error types, whatever client produced it (lines 108-122).
- Update puts the body under the configured `username` but reads back under the identity `d.Id()` (lines 137, 143, 147). The schema does not make `username` force a new resource. So after a rename, a successful Update creates the new user on the cluster, keeps the old identity, and the read-back sets `username` back to it (`Properties.UpdateUnderOtherName`).
- If Create's put succeeds but its read-back fails, Create returns that error with the identity already set (line 99).
- `enabled` is dropped from the body when it is false (line 347). A body for a disabled user therefore looks the same as one that never mentions `enabled` (`Wire.Encode`). A reader that fills an absent `enabled` with false gets the user back (`Wire.DecodeEncode`). A reader that applies a default of true, as the resource's own schema does (line 44), reads that user as enabled.

## Model

| member | source | states |
|---|---|---|
| `Errors.IsNotFound` | es/resource_elasticsearch_xpack_user.go:108-122 | only library errors can be "not found", and each is judged by its own library's predicate |
| `Errors.ConstantErrorsAreNeverNotFound` | es/resource_elasticsearch_xpack_user.go:118-123 | the v5 refusal, the unknown-client error and the body error are never classified as not found |
| `Wire.Encode` | es/resource_elasticsearch_xpack_user.go:341-350 | `username` and `roles` are always present; `full_name`, `email`, `password` and `password_hash` are present exactly when non-empty, `metadata` exactly when non-nil, and `enabled` exactly when true |
| `Wire.Decode` | es/resource_elasticsearch_xpack_user.go:341-350 | a reader fills an absent credential with "" and an absent `enabled` with false |
| `Wire.DecodeEncode` | es/resource_elasticsearch_xpack_user.go:341-350 | decoding the body with a zero-filling reader (absent keys read as "", false, nil) gives back the struct |
| `Adapters.Elastic5PutUser` | es/resource_elasticsearch_xpack_user.go:261-263 | returns "unsupported in elasticv5 client" and sends nothing |
| `Adapters.Elastic6PutUser` | es/resource_elasticsearch_xpack_user.go:265-269 | sends one put request for the name and body and returns the cluster's error unchanged |
| `Adapters.Elastic7PutUser` | es/resource_elasticsearch_xpack_user.go:271-275 | the same for the v7 client |
| `Adapters.Elastic5GetUser` | es/resource_elasticsearch_xpack_user.go:277-280 | returns a zero user and the v5 refusal, and sends nothing |
| `Adapters.FetchUser` | es/resource_elasticsearch_xpack_user.go:282-300 | a transport error gives a zero user and that error. Otherwise the user has the requested name and the roles, full name, email and enabled flag of the entry under that name (a zero entry when absent), and no credentials. A metadata marshal failure is returned beside that user. |
| `Adapters.Elastic6GetUser` | es/resource_elasticsearch_xpack_user.go:282-300 | behaves as `FetchUser` |
| `Adapters.Elastic7GetUser` | es/resource_elasticsearch_xpack_user.go:302-320 | behaves as `FetchUser` (the v7 body is the v6 body) |
| `Adapters.Elastic5DeleteUser` | es/resource_elasticsearch_xpack_user.go:322-325 | returns the v5 refusal and sends nothing |
| `Adapters.Elastic6DeleteUser` | es/resource_elasticsearch_xpack_user.go:327-330 | sends one delete request and returns the cluster's error unchanged |
| `Adapters.Elastic7DeleteUser` | es/resource_elasticsearch_xpack_user.go:332-335 | the same for the v7 client |
| `Adapters.XpackPutUser` | es/resource_elasticsearch_xpack_user.go:210-225 | a v7, v6 or v5 client goes to exactly that adapter. Only v7 and v6 send anything, and then only the one put. A `getClient` error or an unknown client is returned without any request. |
| `Adapters.XpackGetUser` | es/resource_elasticsearch_xpack_user.go:227-242 | the same routing for get; the local errors come with a zero user |
| `Adapters.XpackDeleteUser` | es/resource_elasticsearch_xpack_user.go:244-259 | the same routing for delete |
| `Adapters.NoTransportIgnoresCluster` | es/resource_elasticsearch_xpack_user.go:215-224 | for a v5 client, a failed `getClient` or an unknown client, no dispatcher sends a request, and the result does not depend on the cluster |
| `Lifecycle.BuildPutUserBody` | es/resource_elasticsearch_xpack_user.go:175-208 | `password` is sent only when it changed and is non-empty, and then with the record's value; the same for `password_hash`. Every present key carries the record's value: `username`, `roles`, `full_name`, `email`, the metadata that `optionalInterfaceJson` gives, `enabled` as true. The body has no key beyond the struct's eight. The keys follow the omission rules, and decoding the body gives the record's user struct. A marshal failure gives "Body Error : ". |
| `Lifecycle.Read` | es/resource_elasticsearch_xpack_user.go:103-134 | A not-found error clears the identity and returns nil. Any other error is returned, with the record unchanged. A successful get overwrites username (with the identity), roles, full name, email, metadata and enabled from the cluster's entry. Credentials and the identity are never written, except that not found clears the identity. |
| `Lifecycle.Create` | es/resource_elasticsearch_xpack_user.go:88-101 | The identity changes only when the body was built and the put succeeded. It ends as the old identity, the user name, or empty. A body failure returns "Body Error : " and a put failure returns the put's error, both with the record unchanged. After both succeed, Create is the Read of the record under identity = user name. It sends the put's request (if any), then the read-back's. |
| `Lifecycle.Update` | es/resource_elasticsearch_xpack_user.go:136-148 | Update never sets the identity. Only its read-back's not-found clears it. A returned error leaves the record unchanged. A body failure returns "Body Error : " and a put failure returns the put's error. After a successful put it is exactly Read. It sends the put's request (if any), then the read-back's. |
| `Lifecycle.Delete` | es/resource_elasticsearch_xpack_user.go:150-173 | every outcome ends with an empty identity, the rest of the record unchanged, and nil returned; one delete request is sent only for v7 and v6 |
| `Properties.V5RejectsEveryOperation` | es/resource_elasticsearch_xpack_user.go:88-173 | With a v5 client, Create and Update return the refusal (or the body error) and leave the record unchanged. Read surfaces the refusal and keeps the identity. Delete clears the identity and returns nil. None of them sends a request. |
| `Properties.UnknownClientRejected` | es/resource_elasticsearch_xpack_user.go:222-224 | an unknown client gets "unhandled client type" from Create and Update (or the body error) and from Read; nothing is sent and only Delete changes the record |
| `Properties.ReadIdempotent` | es/resource_elasticsearch_xpack_user.go:103-134 | reading twice against the same cluster gives the record one read gives (after a not-found, the second read asks for "", and the cluster's get error does not depend on the name) |
| `Properties.UpdateUnderOtherName` | es/resource_elasticsearch_xpack_user.go:136-148 | when the configured name differs from the identity, a successful Update puts the new name but keeps the identity, and reads the old name back into `username` |
| `Properties.RunKeepsCredentials` | es/resource_elasticsearch_xpack_user.go:126-133 | no sequence of handler calls changes the password, the password hash or the change set |
| `Properties.IdentityComesFromCreate` | es/resource_elasticsearch_xpack_user.go:99 | after any sequence of handler calls the identity is empty, the starting identity, or a user name some Create step actually put (its body was built and its put succeeded) |
| `Properties.V5RunNeverBinds` | es/resource_elasticsearch_xpack_user.go:261-263 | against a v5 client no sequence of handler calls sends a request or gives a record without identity an identity |
| `Properties.RunEndingInDeleteIsAbsent` | es/resource_elasticsearch_xpack_user.go:150-173 | whatever ran before and whatever the cluster answered, a run ending in Delete leaves no identity |
| `Resource.ResourceData.BuildPutUserBody` | es/resource_elasticsearch_xpack_user.go:175-208 | assembles the struct field by field, credentials only under `HasChange`, and yields the body `Lifecycle.BuildPutUserBody` specifies |
| `Resource.ResourceData.Create` | es/resource_elasticsearch_xpack_user.go:88-101 | updates the record and returns the error as `Lifecycle.Create` says; the identity moves only after a successful put |
| `Resource.ResourceData.Read` | es/resource_elasticsearch_xpack_user.go:103-134 | updates the record and returns the error as `Lifecycle.Read` says; credentials are untouched, and a returned error is never a not-found one |
| `Resource.ResourceData.Update` | es/resource_elasticsearch_xpack_user.go:136-148 | updates the record as `Lifecycle.Update` says; the identity is kept or, with nil returned, cleared |
| `Resource.ResourceData.Delete` | es/resource_elasticsearch_xpack_user.go:150-173 | always ends with an empty identity and returns nil |

## Left out

- The schema (lines 16-86): types, defaults (`enabled` true, `metadata` "{}"), validation, `StateFunc: hashSum` and `suppressEquivalentJson`. The record holds the values the SDK would supply.
- `getClient` and the provider configuration. Only their outcome is modelled: a client family or an error. One `getClient` outcome serves both calls of a handler, so the model cannot express a Create or Update whose put reaches a client while the read-back's `getClient` fails.
- The HTTP transport, request builders and `context.Background()`. Each request's reply is a field of `Cluster`, and it does not depend on the request's contents.
- `json.Marshal` of the body: modelled as `Wire.Encode` when it succeeds, plus a flag that says whether it succeeds. JSON text, key order and escaping are not modelled.
- `json.Marshal` of the response metadata: each response entry carries its outcome, either the text or the error message.
- `optionalInterfaceJson` is not part of this model. It is a field of `Env`, left uninterpreted, so whether the body carries metadata (for the schema default "{}" too) is stated only in terms of what it returns. Its parsing and its handling of malformed JSON are not modelled.
- `expandStringList` and the set semantics of `roles`: roles are an ordered sequence, with no de-duplication.
- `resourceDataSetter` is not part of this model. Every `d.Set` in Read is taken to succeed, so Read's success path returns nil.
- The concrete `IsNotFound` of each client library: kept uninterpreted, one per library.
- Logging (`fmt.Println`, `fmt.Printf`, `log.Printf`).
- Concurrency: the handlers are modelled one call at a time, as the SDK calls them.
