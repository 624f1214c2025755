/**
 * The session store (AuthContext): the signed-in user, the copy of it persisted in local storage,
 * and the loading flag the rest of the application waits on.
 *
 * Local storage is the field `stored` (the text under the key 'user', or None). JSON.parse and
 * JSON.stringify are the store's `parse` and `stringify`, fixed when it is created; all the model
 * assumes of them is FaithfulCodec.
 */
module Auth {
  import opened Wrappers
  import opened Api
  import opened Domain

  /** What JSON.parse makes of a text: it throws, or it yields a value; a JSON `null` yields no user. */
  datatype Parsed = Corrupt | Decoded(user: Option<User>)

  /** Serialising a user never gives the empty string, and parsing the serialisation gives the user back. */
  ghost predicate FaithfulCodec(parse: string -> Parsed, stringify: User -> string) {
    forall u: User :: stringify(u) != "" && parse(stringify(u)) == Decoded(Some(u))
  }

  /** The stored record is truthy: present and not the empty string. */
  predicate Truthy(stored: Option<string>) {
    stored.Some? && stored.value != ""
  }

  /** The user a freshly started client obtains from a stored record. */
  function Reload(stored: Option<string>, parse: string -> Parsed): (r: Option<User>)
    ensures r.Some? ==> Truthy(stored) && parse(stored.value) == Decoded(r)
    ensures !Truthy(stored) ==> r == None
  {
    if Truthy(stored) && parse(stored.value).Decoded? then parse(stored.value).user else None
  }

  /** `isAdmin` as the context exposes it: `user?.isAdmin || false`. */
  function IsAdmin(user: Option<User>): (b: bool)
    ensures b ==> user.Some?
    ensures user.Some? ==> (b <==> user.value.isAdmin)
  {
    user.Some? && user.value.isAdmin
  }

  class SessionStore {
    const parse: string -> Parsed
    const stringify: User -> string
    var user: Option<User>
    var stored: Option<string>
    var isLoading: bool
    /** Whether the mount-time restore has run. */
    ghost var restored: bool

    /**
     * Before the restore nobody is signed in; afterwards the in-memory user is always the one a
     * restarted client would read back from storage.
     */
    ghost predicate Valid()
      reads this
    {
      && FaithfulCodec(parse, stringify)
      && (!restored ==> user == None)
      && (restored ==> user == Reload(stored, parse))
    }

    /** The provider's first render: no user, loading, storage as the previous run left it. */
    constructor (storage: Option<string>, parse: string -> Parsed, stringify: User -> string)
      requires FaithfulCodec(parse, stringify)
      ensures Valid() && !restored
      ensures this.parse == parse && this.stringify == stringify
      ensures user == None && stored == storage && isLoading
    {
      this.parse := parse;
      this.stringify := stringify;
      user := None;
      stored := storage;
      isLoading := true;
      restored := false;
    }

    /**
     * The mount effect: a truthy stored record is parsed; a record that fails to parse is removed;
     * an empty or absent one is left alone. Loading ends either way.
     */
    method Restore()
      requires Valid() && !restored
      modifies this
      ensures Valid() && restored && !isLoading
      ensures Truthy(old(stored)) && parse(old(stored).value).Corrupt? ==> user == None && stored == None
      ensures Truthy(old(stored)) && parse(old(stored).value).Decoded? ==>
                user == parse(old(stored).value).user && stored == old(stored)
      ensures !Truthy(old(stored)) ==> user == None && stored == old(stored)
    {
      if stored.Some? && stored.value != "" {
        var outcome := parse(stored.value);
        match outcome {
          case Decoded(u) =>
            user := u;
          case Corrupt =>
            stored := None;
        }
      }
      isLoading := false;
      restored := true;
    }

    /**
     * Sign in with the backend's reply to the credentials. Only a reply carrying a user signs in and
     * persists it; any other reply, or a failed call, changes neither the user nor the record.
     */
    method Login(email: string, password: string, reply: Reply<Option<User>>) returns (ok: bool, calls: seq<Request>)
      requires Valid() && restored
      modifies this
      ensures Valid() && restored && !isLoading
      ensures calls == [LoginCall(email, password)]
      ensures ok <==> reply.Ok? && reply.body.Some?
      ensures ok ==> user == reply.body && stored == Some(stringify(reply.body.value))
      ensures !ok ==> user == old(user) && stored == old(stored)
    {
      isLoading := true;
      calls := [LoginCall(email, password)];
      ok := false;
      match reply {
        case Ok(body) =>
          if body.Some? {
            user := body;
            stored := Some(stringify(body.value));
            ok := true;
          }
        case Failed(_) =>
      }
      isLoading := false;
    }

    /** Create an account. Never signs in; succeeds exactly when the reply carries the new user. */
    method Register(registration: Registration, reply: Reply<Option<User>>) returns (ok: bool, calls: seq<Request>)
      requires Valid()
      modifies this
      ensures Valid() && restored == old(restored) && !isLoading
      ensures calls == [RegisterCall(registration)]
      ensures ok <==> reply.Ok? && reply.body.Some?
      ensures user == old(user) && stored == old(stored)
    {
      isLoading := true;
      calls := [RegisterCall(registration)];
      ok := reply.Ok? && reply.body.Some?;
      isLoading := false;
    }

    /** Sign out: no user and no stored record, whatever the state before. */
    method Logout()
      requires Valid()
      modifies this
      ensures Valid() && restored == old(restored) && isLoading == old(isLoading)
      ensures user == None && stored == None
    {
      user := None;
      stored := None;
    }
  }

  /**
   * A restart: a new store over the same storage, then its restore. The restarted client has the
   * same user as the running one.
   */
  method Restart(running: SessionStore) returns (next: SessionStore)
    requires running.Valid() && running.restored
    ensures fresh(next) && next.Valid() && next.restored && !next.isLoading
    ensures next.user == running.user
  {
    next := new SessionStore(running.stored, running.parse, running.stringify);
    next.Restore();
  }

  /** A successful login survives a restart. */
  method LoginThenRestart(store: SessionStore, email: string, password: string, u: User) returns (next: SessionStore)
    requires store.Valid() && store.restored
    modifies store
    ensures store.user == Some(u)
    ensures fresh(next) && next.user == Some(u)
  {
    var ok, _ := store.Login(email, password, Ok(Some(u)));
    next := Restart(store);
  }
}
