/** The session (`src/contexts/AuthContext.tsx`): the signed-in user and
    token, restored from `localStorage` on load and written there by login
    and register, cleared by logout; and the role helpers every page uses. */
module Auth {
  import opened Wrappers
  import opened Strings
  import opened Js
  import Json
  import opened WebStorage
  import opened ApiClient

  const UserKey := "renttrack_user"

  /** `User`: the role is whatever string the server sent (`res.role as Role`). */
  datatype User = User(id: Option<string>, email: string, name: string, role: string)

  const EmailPrefix := "{\"email\":\""
  const NamePrefix := ",\"name\":\""
  const RolePrefix := ",\"role\":\""

  /** One string member as `JSON.stringify` writes it: the prefix above
      (ending in the opening quote), the escaped value, the closing quote. */
  function MemberText(prefix: string, value: string): string {
    prefix + Json.Escape(value) + "\""
  }

  /** `JSON.stringify({ email, name, role })`: the id is never stored. */
  function EncodeUser(u: User): string {
    MemberText(EmailPrefix, u.email) + MemberText(NamePrefix, u.name)
      + MemberText(RolePrefix, u.role) + "}"
  }

  /** A string member `prefix` followed by its quoted value: the value and
      what follows its closing quote. */
  function Member(s: string, prefix: string): Option<(string, string)> {
    if StartsWith(s, prefix) then Json.Unquote(s[|prefix|..]) else None
  }

  /** `JSON.parse` of a stored user, for text in the layout `EncodeUser` writes. */
  function DecodeUser(s: string): Option<User> {
    match Member(s, EmailPrefix)
    case None => None
    case Some((email, r1)) =>
      match Member(r1, NamePrefix)
      case None => None
      case Some((name, r2)) =>
        match Member(r2, RolePrefix)
        case None => None
        case Some((role, r3)) =>
          if r3 == "}" then Some(User(None, email, name, role)) else None
  }

  /** A written member reads back as its value. */
  lemma MemberQuoted(prefix: string, text: string, rest: string)
    ensures Member(MemberText(prefix, text) + rest, prefix) == Some((text, rest))
  {
    var s := prefix + Json.Escape(text) + "\"" + rest;
    assert MemberText(prefix, text) + rest == s;
    assert s[..|prefix|] == prefix;
    assert s[|prefix|..] == Json.Escape(text) + "\"" + rest;
    Json.UnquoteEscape(text, rest);
  }

  /** A stored user reads back as itself, without its id. */
  lemma DecodeEncodeUser(u: User)
    ensures DecodeUser(EncodeUser(u)) == Some(u.(id := None))
  {
    var t3 := "}";
    var t2 := MemberText(RolePrefix, u.role) + t3;
    var t1 := MemberText(NamePrefix, u.name) + t2;
    assert EncodeUser(u) == MemberText(EmailPrefix, u.email) + t1;
    MemberQuoted(EmailPrefix, u.email, t1);
    assert Member(EncodeUser(u), EmailPrefix) == Some((u.email, t1));
    MemberQuoted(NamePrefix, u.name, t2);
    assert Member(t1, NamePrefix) == Some((u.name, t2));
    MemberQuoted(RolePrefix, u.role, t3);
    assert Member(t2, RolePrefix) == Some((u.role, t3));
  }

  /** `isAuthenticated`. */
  predicate IsAuthenticated(user: Option<User>) {
    user.Some?
  }

  /** `isLandlord`. */
  predicate IsLandlord(user: Option<User>) {
    user.Some? && user.value.role == "LANDLORD"
  }

  /** `isTenant`. */
  predicate IsTenant(user: Option<User>) {
    user.Some? && user.value.role == "TENANT"
  }

  /** The role helpers never both hold, and either implies a signed-in user;
      an ADMIN (or any other role) is neither. */
  lemma RoleHelpers(user: Option<User>)
    ensures !(IsLandlord(user) && IsTenant(user))
    ensures IsLandlord(user) || IsTenant(user) ==> IsAuthenticated(user)
    ensures IsLandlord(user) || IsTenant(user) <==>
      user.Some? && (user.value.role == "LANDLORD" || user.value.role == "TENANT")
  {
  }

  /** What the login and register endpoints return. */
  datatype AuthResponse = AuthResponse(token: string, email: string, name: string, role: string)

  /** The user object built from a response: no id. */
  function UserOf(res: AuthResponse): (u: User)
    ensures u.id == None && u.email == res.email && u.name == res.name && u.role == res.role
  {
    User(None, res.email, res.name, res.role)
  }

  /** The storage left by a successful login or register. */
  function StoreSession(items: map<string, string>, res: AuthResponse): map<string, string> {
    items[TokenKey := res.token][UserKey := EncodeUser(UserOf(res))]
  }

  /** What the restore effect finds in storage. */
  datatype Found = NoSession | Adopt(token: string, user: User) | Unparseable

  /** The restore decision: a session is adopted only when both keys hold
      non-empty strings and the user parses. */
  function RestoreDecision(items: map<string, string>): (f: Found)
    ensures f.Adopt? ==> TokenKey in items && items[TokenKey] == f.token && f.token != ""
    ensures f.Adopt? ==> UserKey in items && DecodeUser(items[UserKey]) == Some(f.user)
    ensures f == Unparseable <==>
              TokenKey in items && items[TokenKey] != ""
              && UserKey in items && items[UserKey] != "" && DecodeUser(items[UserKey]).None?
    ensures f == NoSession <==>
              TokenKey !in items || items[TokenKey] == ""
              || UserKey !in items || items[UserKey] == ""
  {
    var savedToken := if TokenKey in items then Some(items[TokenKey]) else None;
    var savedUser := if UserKey in items then Some(items[UserKey]) else None;
    if Truthy(savedToken) && Truthy(savedUser) then
      match DecodeUser(savedUser.value)
      case Some(u) => Adopt(savedToken.value, u)
      case None => Unparseable
    else NoSession
  }

  /** After a login with a non-empty token, reloading the page restores the
      same token and the same user. */
  lemma LoginThenRestore(items: map<string, string>, res: AuthResponse)
    requires res.token != ""
    ensures RestoreDecision(StoreSession(items, res)) == Adopt(res.token, UserOf(res))
  {
    var u := UserOf(res);
    DecodeEncodeUser(u);
    assert EncodeUser(u) != "" by {
      assert EncodeUser(u)[0] == '{';
    }
  }

  /** `useContext(AuthContext)` outside the provider. */
  function UseAuth<T>(ctx: Option<T>): (r: Result<T, string>)
    ensures ctx.None? <==> r == Failure("useAuth must be used inside AuthProvider")
    ensures ctx.Some? ==> r == Success(ctx.value)
  {
    match ctx
    case None => Failure("useAuth must be used inside AuthProvider")
    case Some(c) => Success(c)
  }

  /** The `AuthProvider` state and the storage and API client it writes. */
  class AuthProvider {
    var user: Option<User>
    var token: Option<string>
    var loading: bool
    const storage: Storage
    const api: Client

    /** The API client writes the same storage as the provider. */
    predicate Valid()
      reads this
    {
      api.storage == storage
    }

    constructor (api: Client)
      ensures Valid() && this.api == api && storage == api.storage
      ensures user == None && token == None && loading
    {
      this.api := api;
      storage := api.storage;
      user, token, loading := None, None, true;
    }

    /** The restore effect run once on mount. */
    method Restore()
      requires Valid()
      modifies this, storage, api
      ensures Valid() && !loading
      ensures match RestoreDecision(old(storage.items))
        case Adopt(t, u) =>
          user == Some(u) && token == Some(t) && api.authToken == Some(t)
          && storage.items == old(storage.items)
        case Unparseable =>
          storage.items == map[] && user == old(user) && token == old(token)
          && api.authToken == old(api.authToken)
        case NoSession =>
          storage.items == old(storage.items) && user == old(user) && token == old(token)
          && api.authToken == old(api.authToken)
    {
      var savedToken := storage.GetItem(TokenKey);
      var savedUser := storage.GetItem(UserKey);
      if Truthy(savedToken) && Truthy(savedUser) {
        var parsed := DecodeUser(savedUser.value);
        if parsed.Some? {
          token := savedToken;
          user := parsed;
          api.SetToken(savedToken.value);
          assert storage.items == old(storage.items);
        } else {
          storage.Clear();
        }
      }
      loading := false;
    }

    /** Adopts a session returned by the server, in the source's order:
        storage token, storage user, API token, state. */
    method AdoptSession(res: AuthResponse)
      requires Valid()
      modifies this, storage, api
      ensures Valid() && loading == old(loading)
      ensures user == Some(UserOf(res)) && token == Some(res.token)
      ensures api.authToken == Some(res.token)
      ensures storage.items == StoreSession(old(storage.items), res)
    {
      var u := UserOf(res);
      storage.SetItem(TokenKey, res.token);
      storage.SetItem(UserKey, EncodeUser(u));
      api.SetToken(res.token);
      assert storage.items == StoreSession(old(storage.items), res);
      token := Some(res.token);
      user := Some(u);
    }

    /** `login`: every write follows the awaited call, so a rejected call
        changes nothing and its error propagates. */
    method Login(response: Result<AuthResponse, string>) returns (err: Option<string>)
      requires Valid()
      modifies this, storage, api
      ensures Valid() && loading == old(loading)
      ensures response.Failure? ==>
                err == Some(response.error)
                && user == old(user) && token == old(token)
                && storage.items == old(storage.items) && api.authToken == old(api.authToken)
      ensures response.Success? ==>
                err == None
                && user == Some(UserOf(response.value)) && token == Some(response.value.token)
                && api.authToken == token
                && storage.items == StoreSession(old(storage.items), response.value)
    {
      match response
      case Failure(e) =>
        err := Some(e);
      case Success(res) =>
        AdoptSession(res);
        err := None;
    }

    /** `register`: the same session handling as `login`. */
    method Register(response: Result<AuthResponse, string>) returns (err: Option<string>)
      requires Valid()
      modifies this, storage, api
      ensures Valid() && loading == old(loading)
      ensures response.Failure? ==>
                err == Some(response.error)
                && user == old(user) && token == old(token)
                && storage.items == old(storage.items) && api.authToken == old(api.authToken)
      ensures response.Success? ==>
                err == None
                && user == Some(UserOf(response.value)) && token == Some(response.value.token)
                && api.authToken == token
                && storage.items == StoreSession(old(storage.items), response.value)
    {
      match response
      case Failure(e) =>
        err := Some(e);
      case Success(res) =>
        AdoptSession(res);
        err := None;
    }

    /** `logout`: storage emptied, API token cleared, user and token null. */
    method Logout()
      requires Valid()
      modifies this, storage, api
      ensures Valid() && loading == old(loading)
      ensures storage.items == map[] && api.authToken == None
      ensures user == None && token == None
      ensures !IsAuthenticated(user)
    {
      storage.Clear();
      api.ClearToken();
      user := None;
      token := None;
    }
  }
}
