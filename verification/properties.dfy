/** Properties of the handlers: the v5 and unknown-client paths, the
    read-back, and what any run of handlers preserves. */
module Properties {
  import opened Wrappers
  import opened Errors
  import opened Wire
  import opened Adapters
  import opened Lifecycle

  /** With a v5 client nothing reaches the cluster: Create and Update fail
      with the v5 refusal (or the body error first) and leave the record as
      it was; Read surfaces the refusal instead of clearing the identity,
      because it is not an elastic5 error; Delete still clears the identity
      and returns nil. */
  lemma V5RejectsEveryOperation(s: State, env: Env)
    requires env.client == Success(V5)
    ensures Create(s, env) == Outcome(s, Some(if env.bodyMarshals then UNSUPPORTED_IN_V5 else BODY_ERROR), [])
    ensures Update(s, env) == Outcome(s, Some(if env.bodyMarshals then UNSUPPORTED_IN_V5 else BODY_ERROR), [])
    ensures Read(s, env) == Outcome(s, Some(UNSUPPORTED_IN_V5), [])
    ensures Delete(s, env) == Outcome(s.(id := ""), None, [])
  {
  }

  /** A client of no known library gets the unknown-client error from every
      operation but Delete, with nothing sent and the record unchanged. */
  lemma UnknownClientRejected(s: State, env: Env)
    requires env.client == Success(Other)
    ensures Create(s, env) == Outcome(s, Some(if env.bodyMarshals then UNHANDLED_CLIENT_TYPE else BODY_ERROR), [])
    ensures Update(s, env) == Outcome(s, Some(if env.bodyMarshals then UNHANDLED_CLIENT_TYPE else BODY_ERROR), [])
    ensures Read(s, env) == Outcome(s, Some(UNHANDLED_CLIENT_TYPE), [])
    ensures Delete(s, env) == Outcome(s.(id := ""), None, [])
  {
  }

  /** Reading twice against the same cluster leaves the record as reading
      once did.  When the first read clears the identity, the second asks
      for the name "": it is again cleared only because the cluster's get
      error (`Cluster.getReply`) does not depend on the name asked for. */
  lemma ReadIdempotent(s: State, env: Env)
    ensures Read(Read(s, env).state, env).state == Read(s, env).state
  {
  }

  /** Update puts under the configured user name but reads back under the
      identity: when the two differ, a successful update sends the new name
      to the cluster while the record keeps its identity and the read-back
      sets the user name back to it. */
  lemma UpdateUnderOtherName(s: State, env: Env)
    requires s.username != s.id
    requires Transports(env.client) && env.bodyMarshals
    requires env.cluster.putReply == None && env.cluster.getReply.Success?
    requires EntryFor(env.cluster.getReply.value, s.id).metadata.Success?
    ensures |Update(s, env).sent| == 2
    ensures Update(s, env).sent[0].PutUserRequest? && Update(s, env).sent[0].name == s.username
    ensures Update(s, env).sent[1] == GetUserRequest(s.id)
    ensures Update(s, env).err == None
    ensures Update(s, env).state.id == s.id && Update(s, env).state.username == s.id
  {
  }

  // ---- runs of handlers ----

  datatype Op = CreateOp | ReadOp | UpdateOp | DeleteOp

  /** One handler invocation and the world it meets. */
  datatype Step = Step(op: Op, env: Env)

  function Apply(s: State, step: Step): Outcome
  {
    match step.op
    case CreateOp => Create(s, step.env)
    case ReadOp => Read(s, step.env)
    case UpdateOp => Update(s, step.env)
    case DeleteOp => Delete(s, step.env)
  }

  /** The record after the steps, in order. */
  function Run(s: State, steps: seq<Step>): State
    decreases |steps|
  {
    if steps == [] then s else Run(Apply(s, steps[0]).state, steps[1..])
  }

  /** Every request the steps send, in order. */
  function Sent(s: State, steps: seq<Step>): seq<Request>
    decreases |steps|
  {
    if steps == [] then [] else Apply(s, steps[0]).sent + Sent(Apply(s, steps[0]).state, steps[1..])
  }

  /** Whether a Create step's body is built and its put succeeds, the two
      conditions under which Create sets the identity. */
  predicate PutSucceeds(step: Step)
  {
    step.op == CreateOp && step.env.bodyMarshals && Transports(step.env.client) && step.env.cluster.putReply == None
  }

  /** The user names that Create steps actually put (body built, put
      answered without error), each as the record held it then. */
  function CreatedNames(s: State, steps: seq<Step>): set<string>
    decreases |steps|
  {
    if steps == [] then {}
    else
      (if PutSucceeds(steps[0]) then {s.username} else {})
      + CreatedNames(Apply(s, steps[0]).state, steps[1..])
  }

  /** No handler writes the credentials or the plan's change set: the
      cluster never returns secrets, so only the configuration sets them. */
  lemma {:induction false} RunKeepsCredentials(s: State, steps: seq<Step>)
    ensures Run(s, steps).password == s.password
    ensures Run(s, steps).passwordHash == s.passwordHash
    ensures Run(s, steps).changed == s.changed
    decreases |steps|
  {
    if steps != [] {
      RunKeepsCredentials(Apply(s, steps[0]).state, steps[1..]);
    }
  }

  /** The identity is only ever set by Create, to the user name it put:
      after any run it is empty, the identity the run started with, or one
      of the names a Create step successfully put. */
  lemma {:induction false} IdentityComesFromCreate(s: State, steps: seq<Step>)
    ensures Run(s, steps).id in {"", s.id} + CreatedNames(s, steps)
    decreases |steps|
  {
    if steps != [] {
      var next := Apply(s, steps[0]).state;
      IdentityComesFromCreate(next, steps[1..]);
      assert next.id in {"", s.id} + (if PutSucceeds(steps[0]) then {s.username} else {});
    }
  }

  /** Against a v5 client a user can never come into existence: no request
      is ever sent, and a record without identity keeps none. */
  lemma {:induction false} V5RunNeverBinds(s: State, steps: seq<Step>)
    requires forall i :: 0 <= i < |steps| ==> steps[i].env.client == Success(V5)
    ensures Sent(s, steps) == []
    ensures Run(s, steps).id in {s.id, ""}
    ensures s.id == "" ==> Run(s, steps).id == ""
    decreases |steps|
  {
    if steps != [] {
      V5RejectsEveryOperation(s, steps[0].env);
      V5RunNeverBinds(Apply(s, steps[0]).state, steps[1..]);
    }
  }

  /** Running one more step is applying it to where the run got to. */
  lemma {:induction false} RunSnoc(s: State, steps: seq<Step>, last: Step)
    ensures Run(s, steps + [last]) == Apply(Run(s, steps), last).state
    decreases |steps|
  {
    if steps == [] {
      assert steps + [last] == [last];
    } else {
      assert (steps + [last])[1..] == steps[1..] + [last];
      RunSnoc(Apply(s, steps[0]).state, steps[1..], last);
    }
  }

  /** Delete converges: whatever came before and whatever the cluster
      answered, a run ending in Delete leaves no identity. */
  lemma RunEndingInDeleteIsAbsent(s: State, steps: seq<Step>, env: Env)
    ensures Run(s, steps + [Step(DeleteOp, env)]).id == ""
  {
    RunSnoc(s, steps, Step(DeleteOp, env));
  }
}
