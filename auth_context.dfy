/** `AuthProvider`: the credential and identity shared by every component,
    and the browser storage slot that keeps the credential across reloads. */
module AuthContext {
  import opened Wrappers
  import opened Api

  /** The storage key the credential is kept under. */
  const TokensKey := "tokens"

  /** The body of a request to the token or the registration endpoint. */
  datatype AuthRequest =
    | Login(username: string, password: string)
    | Register(username: string, email: string, password: string)

  class AuthProvider {
    var authTokens: Option<Tokens>
    var user: Option<User>
    /** The browser's `localStorage`, as far as this provider uses it. The
        JSON text it stores is represented by the value it encodes. */
    var storage: map<string, Tokens>

    /** The stored credential, if any. */
    function Stored(): (t: Option<Tokens>)
      reads this
      ensures t.Some? <==> TokensKey in storage
      ensures t.Some? ==> t.value == storage[TokensKey]
    {
      if TokensKey in storage then Some(storage[TokensKey]) else None
    }

    /** The in-memory credential is the stored one, and an identity is only
        ever held together with a credential. */
    ghost predicate Valid()
      reads this
    {
      authTokens == Stored() && (user.Some? ==> authTokens.Some?)
    }

    /** Mounting: the credential is read back from storage, the identity
        starts absent. */
    constructor (stored: map<string, Tokens>)
      ensures Valid()
      ensures storage == stored && user == None
      ensures authTokens == (if TokensKey in stored then Some(stored[TokensKey]) else None)
    {
      storage := stored;
      authTokens := if TokensKey in stored then Some(stored[TokensKey]) else None;
      user := None;
    }

    /** The effect that runs whenever `authTokens` changes. With a credential it
        asks for the current user and keeps the body of an ok answer; any other
        outcome clears the identity. The credential itself is never touched. */
    method LookupIdentity(reply: Http<User>) returns (requested: bool)
      requires Valid()
      modifies this`user
      ensures Valid()
      ensures requested <==> authTokens.Some?
      ensures user == if requested && reply.Answered? && reply.ok then reply.body else None
    {
      requested := authTokens.Some?;
      if requested {
        if reply.Answered? && reply.ok && reply.body.Some? {
          user := reply.body;
        } else {
          user := None;
        }
      } else {
        user := None;
      }
    }

    /** `loginUser`. An ok answer's body becomes the credential and is written
        to storage. A non-ok answer resolves to false and changes nothing. There
        is no try/catch: a network error, or an ok answer whose body is not
        JSON, rejects the promise, again changing nothing. */
    method LoginUser(username: string, password: string, reply: Http<Tokens>)
      returns (result: Settled<bool>, sent: AuthRequest)
      requires Valid()
      modifies this`authTokens, this`storage
      ensures Valid()
      ensures sent == Login(username, password)
      ensures result == Resolved(true) <==> reply.Answered? && reply.ok && reply.body.Some?
      ensures result == Resolved(false) <==> reply.Answered? && !reply.ok
      ensures result == Resolved(true) ==>
        authTokens == reply.body && storage == old(storage)[TokensKey := reply.body.value]
      ensures result != Resolved(true) ==>
        authTokens == old(authTokens) && storage == old(storage)
    {
      sent := Login(username, password);
      if reply.Thrown? {
        result := Rejected;
      } else if reply.ok {
        if reply.body.Some? {
          authTokens := reply.body;
          storage := storage[TokensKey := reply.body.value];
          result := Resolved(true);
        } else {
          result := Rejected;
        }
      } else {
        result := Resolved(false);
      }
    }

    /** `logoutUser`: both values cleared, the storage entry removed, and the
        page sent to the application root (returned as `target`). */
    method LogoutUser() returns (target: string)
      modifies this`authTokens, this`user, this`storage
      ensures Valid()
      ensures authTokens == None && user == None
      ensures storage == old(storage) - {TokensKey}
      ensures target == "/"
    {
      authTokens := None;
      user := None;
      storage := storage - {TokensKey};
      target := "/";
    }

    /** `registerUser`: resolves to the answer's `ok` flag and leaves the
        credential, the identity and storage alone. A network error rejects.
        `reached` is `None` when the fetch throws, else the `ok` flag. */
    method RegisterUser(username: string, email: string, password: string, reached: Option<bool>)
      returns (result: Settled<bool>, sent: AuthRequest)
      ensures sent == Register(username, email, password)
      ensures result.Rejected? <==> reached.None?
      ensures reached.Some? ==> result == Resolved(reached.value)
    {
      sent := Register(username, email, password);
      result := if reached.Some? then Resolved(reached.value) else Rejected;
    }
  }
}
