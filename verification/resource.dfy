/** The resource record the Terraform SDK hands to each handler, and the
    four handlers as methods that update it step by step: `SetId` and the
    sequence of `Set` calls of Read.  Each method is proved to end in the
    record and error that the matching function of `Lifecycle` gives. */
module Resource {
  import opened Wrappers
  import opened Errors
  import opened Wire
  import opened Adapters
  import Lifecycle

  class ResourceData {
    var id: string
    var username: string
    var roles: seq<string>
    var fullname: string
    var email: string
    var enabled: bool
    var metadata: string
    var password: string
    var passwordHash: string
    var changed: set<string>

    /** The record as a value. */
    function Snapshot(): Lifecycle.State
      reads this
    {
      Lifecycle.State(id, username, roles, fullname, email, enabled, metadata, password, passwordHash, changed)
    }

    constructor (s: Lifecycle.State)
      ensures Snapshot() == s
    {
      id, username, roles, fullname, email := s.id, s.username, s.roles, s.fullname, s.email;
      enabled, metadata, password, passwordHash, changed := s.enabled, s.metadata, s.password, s.passwordHash, s.changed;
    }

    /** `d.HasChange(key)`. */
    predicate HasChange(key: string)
      reads this
    {
      key in changed
    }

    /** `buildPutUserBody`: the struct assembled from the record field by
        field, the credentials assigned only under `HasChange`, then
        marshalled (`optionalJson` stands for `optionalInterfaceJson`,
        `marshals` says whether `json.Marshal` succeeds). */
    method BuildPutUserBody(optionalJson: string -> Metadata, marshals: bool) returns (body: Result<Body, Error>)
      ensures body == Lifecycle.BuildPutUserBody(Snapshot(), optionalJson, marshals)
      ensures body.Success? ==> ("password" in body.value <==> HasChange("password") && password != "")
      ensures body.Success? ==> ("password_hash" in body.value <==> HasChange("password_hash") && passwordHash != "")
    {
      var user := ZERO_USER;
      user := user.(username := username, roles := roles, fullname := fullname, email := email);
      user := user.(enabled := enabled, metadata := optionalJson(metadata));
      if HasChange("password") {
        user := user.(password := password);
      }
      if HasChange("password_hash") {
        user := user.(passwordHash := passwordHash);
      }
      if !marshals {
        return Failure(BODY_ERROR);
      }
      return Success(Encode(user));
    }

    method Create(env: Lifecycle.Env) returns (err: Option<Error>)
      modifies this
      ensures Snapshot() == Lifecycle.Create(old(Snapshot()), env).state
      ensures err == Lifecycle.Create(old(Snapshot()), env).err
      ensures id != old(id) ==> env.bodyMarshals && env.cluster.putReply == None
    {
      var name := username;
      var body := BuildPutUserBody(env.optionalJson, env.bodyMarshals);
      if body.Failure? {
        return Some(body.error);
      }
      var put := XpackPutUser(env.client, env.cluster, name, body.value);
      if put.result.Some? {
        return put.result;
      }
      id := name;
      err := Read(env);
    }

    method Read(env: Lifecycle.Env) returns (err: Option<Error>)
      modifies this
      ensures Snapshot() == Lifecycle.Read(old(Snapshot()), env).state
      ensures err == Lifecycle.Read(old(Snapshot()), env).err
      ensures password == old(password) && passwordHash == old(passwordHash)
      ensures err.Some? ==> !IsNotFound(err.value, env.notFound)
    {
      var got := XpackGetUser(env.client, env.cluster, id);
      var (user, getErr) := got.result;
      if getErr.Some? {
        if IsNotFound(getErr.value, env.notFound) {
          id := "";
          return None;
        }
        return getErr;
      }
      username := user.username;
      roles := user.roles;
      fullname := user.fullname;
      email := user.email;
      metadata := Lifecycle.MetadataText(user.metadata);
      enabled := user.enabled;
      return None;
    }

    method Update(env: Lifecycle.Env) returns (err: Option<Error>)
      modifies this
      ensures Snapshot() == Lifecycle.Update(old(Snapshot()), env).state
      ensures err == Lifecycle.Update(old(Snapshot()), env).err
      ensures id == old(id) || (id == "" && err == None)
    {
      var name := username;
      var body := BuildPutUserBody(env.optionalJson, env.bodyMarshals);
      if body.Failure? {
        return Some(body.error);
      }
      var put := XpackPutUser(env.client, env.cluster, name, body.value);
      if put.result.Some? {
        return put.result;
      }
      err := Read(env);
    }

    method Delete(env: Lifecycle.Env) returns (err: Option<Error>)
      modifies this
      ensures Snapshot() == Lifecycle.Delete(old(Snapshot()), env).state
      ensures err == None && id == ""
    {
      var del := XpackDeleteUser(env.client, env.cluster, id);
      if del.result.Some? {
        if IsNotFound(del.result.value, env.notFound) {
          id := "";
          return None;
        }
      }
      id := "";
      return None;
    }
  }
}
