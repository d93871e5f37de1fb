/**
 * The session store: the signed-in user, the bearer token and the
 * `isAuthenticated` flag, mirrored into the browser's key/value storage
 * under "token" and "user" so that a reload can restore the session.
 * `JSON.stringify` and `JSON.parse` are supplied as function values; the
 * store never looks inside a user.
 */
module AuthStore {
  import opened JsSemantics

  datatype Role = Role(id: string, name: string)

  /** The parts of a user record a session carries; the store treats it as an opaque value. */
  datatype User = User(id: string, email: string, name: Option<string>, role: Role)

  /** What `JSON.parse` makes of the stored user text. */
  datatype ParsedUser = SyntaxError | JsonNull | UserObject(user: User)

  const TokenKey: string := "token"
  const UserKey: string := "user"

  /** The in-memory part of the store. */
  datatype Session = Session(user: Option<User>, token: Option<string>, isAuthenticated: bool)

  const SignedOut: Session := Session(None, None, false)

  /** The store's intended invariant: authenticated exactly when both token and user are held. */
  predicate Consistent(s: Session)
  {
    s.isAuthenticated <==> s.token.Some? && s.user.Some?
  }

  /** Storage after `login`: both keys written. */
  function LoginStorage(storage: map<string, string>, token: string, userText: string): (st: map<string, string>)
    ensures st.Keys == storage.Keys + {TokenKey, UserKey}
    ensures st[TokenKey] == token && st[UserKey] == userText
    ensures forall k :: k in storage && k != TokenKey && k != UserKey ==> st[k] == storage[k]
  {
    storage[TokenKey := token][UserKey := userText]
  }

  /** Storage after `logout`, or after `initAuth` found an unreadable user: both keys removed. */
  function ClearSession(storage: map<string, string>): (st: map<string, string>)
    ensures st.Keys == storage.Keys - {TokenKey, UserKey}
    ensures forall k :: k in st ==> st[k] == storage[k]
  {
    storage - {TokenKey, UserKey}
  }

  /** Clearing twice is clearing once. */
  lemma ClearSessionIdempotent(storage: map<string, string>)
    ensures ClearSession(ClearSession(storage)) == ClearSession(storage)
  {
  }

  /** What `initAuth` finds in storage. */
  datatype Restore = NoSession | Restored(token: string, user: Option<User>) | Unreadable

  /**
   * `if (token && userStr)` then `JSON.parse(userStr)`: both keys must hold
   * non-empty text; a parse error makes the stored session unreadable.
   */
  function StoredSession(storage: map<string, string>, parse: string -> ParsedUser): (r: Restore)
    ensures r.NoSession? <==> !(Truthy(Get(storage, TokenKey)) && Truthy(Get(storage, UserKey)))
    ensures r.Unreadable? <==>
      && Truthy(Get(storage, TokenKey)) && Truthy(Get(storage, UserKey))
      && parse(storage[UserKey]).SyntaxError?
    ensures r.Restored? ==> r.token == storage[TokenKey] && r.token != ""
    ensures r.Restored? ==> (r.user.Some? <==> parse(storage[UserKey]).UserObject?)
    ensures r.Restored? && r.user.Some? ==> parse(storage[UserKey]) == UserObject(r.user.value)
  {
    var token, userText := Get(storage, TokenKey), Get(storage, UserKey);
    if !(Truthy(token) && Truthy(userText)) then NoSession
    else match parse(userText.value)
      case SyntaxError => Unreadable
      case JsonNull => Restored(token.value, None)
      case UserObject(u) => Restored(token.value, Some(u))
  }

  /** The in-memory state after `initAuth`: replaced only when a session was restored. */
  function InitAuthSession(s: Session, storage: map<string, string>, parse: string -> ParsedUser): (s': Session)
    ensures !StoredSession(storage, parse).Restored? ==> s' == s
    ensures StoredSession(storage, parse).Restored? ==>
      && s'.isAuthenticated
      && s'.token == Some(storage[TokenKey])
      && s'.user == StoredSession(storage, parse).user
  {
    match StoredSession(storage, parse)
    case Restored(token, user) => Session(user, Some(token), true)
    case _ => s
  }

  /** The storage after `initAuth`: cleared only when the stored user could not be parsed. */
  function InitAuthStorage(storage: map<string, string>, parse: string -> ParsedUser): (st: map<string, string>)
    ensures StoredSession(storage, parse).Unreadable? ==> st == ClearSession(storage)
    ensures !StoredSession(storage, parse).Unreadable? ==> st == storage
  {
    if StoredSession(storage, parse).Unreadable? then ClearSession(storage) else storage
  }

  /**
   * `initAuth` keeps the invariant unless the stored user text parses to
   * JSON `null`.
   */
  lemma InitAuthKeepsConsistent(s: Session, storage: map<string, string>, parse: string -> ParsedUser)
    requires Consistent(s)
    requires UserKey in storage ==> !parse(storage[UserKey]).JsonNull?
    ensures Consistent(InitAuthSession(s, storage, parse))
  {
  }

  /**
   * As written, a stored user text that parses to `null` is restored as a
   * signed-in session with no user.
   */
  lemma InitAuthNullUserBreaksConsistency(s: Session, storage: map<string, string>, parse: string -> ParsedUser)
    requires Truthy(Get(storage, TokenKey)) && Truthy(Get(storage, UserKey))
    requires parse(storage[UserKey]) == JsonNull
    ensures var s' := InitAuthSession(s, storage, parse);
      s'.isAuthenticated && s'.user == None && !Consistent(s')
  {
  }

  /**
   * A login is restored by the next `initAuth` exactly when the token is
   * non-empty, provided the user text is non-empty and parses back to the user.
   */
  lemma LoginIsRestored(storage: map<string, string>, token: string, u: User,
                        stringify: User -> string, parse: string -> ParsedUser)
    requires stringify(u) != "" && parse(stringify(u)) == UserObject(u)
    ensures token != "" ==>
      StoredSession(LoginStorage(storage, token, stringify(u)), parse) == Restored(token, Some(u))
    ensures token == "" ==>
      StoredSession(LoginStorage(storage, token, stringify(u)), parse) == NoSession
  {
  }

  /** After a logout nothing is restored, and `initAuth` changes nothing. */
  lemma LogoutIsNotRestored(s: Session, storage: map<string, string>, parse: string -> ParsedUser)
    ensures StoredSession(ClearSession(storage), parse) == NoSession
    ensures InitAuthSession(s, ClearSession(storage), parse) == s
    ensures InitAuthStorage(ClearSession(storage), parse) == ClearSession(storage)
  {
  }

  class AuthStore {
    var user: Option<User>
    var token: Option<string>
    var isAuthenticated: bool
    /** The browser's `localStorage`. */
    var storage: map<string, string>
    /** `typeof window !== 'undefined'`: false while rendering on the server. */
    const inBrowser: bool
    const stringify: User -> string
    const parse: string -> ParsedUser

    function State(): Session
      reads this
    {
      Session(user, token, isAuthenticated)
    }

    /** The store starts signed out. */
    constructor (inBrowser: bool, storage: map<string, string>,
                 stringify: User -> string, parse: string -> ParsedUser)
      ensures State() == SignedOut && Consistent(State())
      ensures this.storage == storage && this.inBrowser == inBrowser
      ensures this.stringify == stringify && this.parse == parse
    {
      this.inBrowser := inBrowser;
      this.storage := storage;
      this.stringify := stringify;
      this.parse := parse;
      user, token, isAuthenticated := None, None, false;
    }

    method Login(t: string, u: User)
      modifies this
      ensures State() == Session(Some(u), Some(t), true) && Consistent(State())
      ensures storage == if inBrowser then LoginStorage(old(storage), t, stringify(u)) else old(storage)
    {
      if inBrowser {
        storage := storage[TokenKey := t];
        storage := storage[UserKey := stringify(u)];
      }
      token, user, isAuthenticated := Some(t), Some(u), true;
    }

    method Logout()
      modifies this
      ensures State() == SignedOut && Consistent(State())
      ensures storage == if inBrowser then ClearSession(old(storage)) else old(storage)
    {
      if inBrowser {
        storage := storage - {TokenKey};
        storage := storage - {UserKey};
      }
      token, user, isAuthenticated := None, None, false;
    }

    method InitAuth()
      modifies this
      ensures inBrowser ==> State() == InitAuthSession(old(State()), old(storage), parse)
      ensures inBrowser ==> storage == InitAuthStorage(old(storage), parse)
      ensures !inBrowser ==> State() == old(State()) && storage == old(storage)
      ensures Consistent(old(State())) && (UserKey in old(storage) ==> !parse(old(storage)[UserKey]).JsonNull?)
        ==> Consistent(State())
    {
      if inBrowser {
        var storedToken := Get(storage, TokenKey);
        var userText := Get(storage, UserKey);
        if Truthy(storedToken) && Truthy(userText) {
          match parse(userText.value)
          case SyntaxError =>
            storage := storage - {TokenKey};
            storage := storage - {UserKey};
          case JsonNull =>
            token, user, isAuthenticated := storedToken, None, true;
          case UserObject(u) =>
            token, user, isAuthenticated := storedToken, Some(u), true;
        }
      }
    }
  }

  /**
   * A page reload in the browser: a login is written to storage, and a
   * fresh store over that storage restores the same session.
   */
  method SessionSurvivesReload(storage: map<string, string>, t: string, u: User,
                               stringify: User -> string, parse: string -> ParsedUser)
    returns (restored: Session)
    requires t != "" && stringify(u) != "" && parse(stringify(u)) == UserObject(u)
    ensures restored == Session(Some(u), Some(t), true)
  {
    var before := new AuthStore(true, storage, stringify, parse);
    before.Login(t, u);
    var after := new AuthStore(true, before.storage, stringify, parse);
    LoginIsRestored(storage, t, u, stringify, parse);
    after.InitAuth();
    restored := after.State();
  }
}
