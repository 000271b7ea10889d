/**
 * The auth store (src/stores/auth.ts): in-memory copies of the login state,
 * kept beside their `localStorage` entries, and a once-per-browser-session
 * cleanup that forgets a login the user did not ask to be remembered.
 *
 * `JSON.parse` and `JSON.stringify` on the user record are foreign: they are
 * the store's `parse` (None when it throws) and `stringify` functions.
 */
module Auth {
  import opened Wrappers
  import opened WebStorage

  /** The user record (src/types/index.ts:5-11) */
  datatype UserInfo = UserInfo(
    id: Option<string>,
    username: string,
    phone: Option<string>,
    email: Option<string>,
    userType: Option<string>)

  const TokenKey := "token"
  const RefreshTokenKey := "refreshToken"
  const UserInfoKey := "userInfo"
  const UserTypeKey := "userType"
  const RememberMeKey := "rememberMe"
  const SessionMarkerKey := "sessionInitialized"
  const DefaultUserType := "1"

  /** What a new browser session forgets when the login was not remembered */
  const LoginKeys: set<string> := {TokenKey, RefreshTokenKey, UserInfoKey, UserTypeKey}
  /** What logout removes */
  const LogoutKeys: set<string> := LoginKeys + {RememberMeKey}

  /** `sessionStorage.getItem('sessionInitialized')` is truthy */
  predicate SessionMarked(session: map<string, string>) {
    SessionMarkerKey in session && session[SessionMarkerKey] != ""
  }

  /** `localStorage.getItem('rememberMe') === 'true'` */
  predicate Remembered(local: map<string, string>) {
    Lookup(local, RememberMeKey) == Some("true")
  }

  /** `localStorage.getItem('token')` is truthy */
  predicate TokenStored(local: map<string, string>) {
    StoredOr(local, TokenKey, "") != ""
  }

  /** The cleanup at the start of a browser session (auth.ts:14-21) */
  function StartupCleanup(local: map<string, string>, session: map<string, string>): (m: map<string, string>)
    // An initialised session clears nothing.
    ensures SessionMarked(session) ==> m == local
    // A new session forgets an unremembered login: exactly the four login keys go.
    ensures !SessionMarked(session) && !Remembered(local) && TokenStored(local) ==> m == local - LoginKeys
    ensures Remembered(local) || !TokenStored(local) ==> m == local
    // In every case the result is the input with some login keys removed.
    ensures m.Keys <= local.Keys && local.Keys - m.Keys <= LoginKeys
    ensures forall k :: k in m ==> m[k] == local[k]
  {
    if !SessionMarked(session) && !Remembered(local) && TokenStored(local) then local - LoginKeys else local
  }

  /** The session marker afterwards (auth.ts:23) */
  function MarkSession(session: map<string, string>): (m: map<string, string>)
    ensures SessionMarked(m)
    ensures !SessionMarked(session) ==> m[SessionMarkerKey] == "true"
    ensures SessionMarked(session) ==> m == session
    ensures m - {SessionMarkerKey} == session - {SessionMarkerKey}
  {
    if SessionMarked(session) then session else session[SessionMarkerKey := "true"]
  }

  /** A stored user record is parsed only when present and neither `'undefined'` nor `'null'` */
  predicate WorthParsing(stored: Option<string>) {
    stored.Some? && stored.value != "" && stored.value != "undefined" && stored.value != "null"
  }

  /** The user record restored from storage (auth.ts:30-40) */
  function RestoredUserInfo(stored: Option<string>, parse: string -> Option<UserInfo>): (r: Option<UserInfo>)
    ensures r.Some? ==> WorthParsing(stored) && r == parse(stored.value)
    ensures WorthParsing(stored) ==> r == parse(stored.value)
  {
    if WorthParsing(stored) then parse(stored.value) else None
  }

  /** A record that fails to parse is removed from storage (auth.ts:37). */
  function DropUnparsable(local: map<string, string>, parse: string -> Option<UserInfo>): (m: map<string, string>)
    // Only the `userInfo` entry can change, and it is either kept as it was or removed.
    ensures m - {UserInfoKey} == local - {UserInfoKey}
    ensures UserInfoKey in m ==> UserInfoKey in local && m[UserInfoKey] == local[UserInfoKey]
    // It is removed exactly when it was worth parsing and the parse failed.
    ensures UserInfoKey in m <==>
              UserInfoKey in local && !(WorthParsing(Lookup(local, UserInfoKey)) && parse(local[UserInfoKey]).None?)
  {
    var stored := Lookup(local, UserInfoKey);
    if WorthParsing(stored) && parse(stored.value).None? then local - {UserInfoKey} else local
  }

  /** `localStorage` once the store is initialised */
  function InitialLocal(local: map<string, string>, session: map<string, string>,
                        parse: string -> Option<UserInfo>): map<string, string>
  {
    DropUnparsable(StartupCleanup(local, session), parse)
  }

  /** A new browser session comes up logged out unless the login was remembered. */
  lemma NewSessionForgetsUnrememberedLogin(local: map<string, string>, session: map<string, string>,
                                           parse: string -> Option<UserInfo>)
    requires !SessionMarked(session) && !Remembered(local)
    ensures !TokenStored(InitialLocal(local, session, parse))
    ensures StoredOr(InitialLocal(local, session, parse), RefreshTokenKey, "") == "" || !TokenStored(local)
  {
  }

  /** A remembered login keeps its tokens across a browser restart. */
  lemma RememberedLoginSurvives(local: map<string, string>, session: map<string, string>,
                                parse: string -> Option<UserInfo>)
    requires Remembered(local)
    ensures var m := InitialLocal(local, session, parse);
            && Lookup(m, TokenKey) == Lookup(local, TokenKey)
            && Lookup(m, RefreshTokenKey) == Lookup(local, RefreshTokenKey)
            && Lookup(m, UserTypeKey) == Lookup(local, UserTypeKey)
  {
  }

  /**
   * The session check (auth.ts:7-24): `rememberMe` is read first, and the
   * cleanup runs only when this browser session has no marker yet.
   */
  method StartSession(local: Storage, session: Storage) returns (remembered: bool)
    requires local != session
    modifies local, session
    ensures remembered == Remembered(old(local.entries))
    ensures local.entries == StartupCleanup(old(local.entries), old(session.entries))
    ensures session.entries == MarkSession(old(session.entries))
  {
    remembered := local.GetItem(RememberMeKey) == Some("true");
    var marker := session.GetItem(SessionMarkerKey);
    if marker.None? || marker.value == "" {
      var stored := local.GetItem(TokenKey);
      if !remembered && stored.Some? && stored.value != "" {
        local.RemoveItem(TokenKey);
        local.RemoveItem(RefreshTokenKey);
        local.RemoveItem(UserInfoKey);
        local.RemoveItem(UserTypeKey);
      }
      session.SetItem(SessionMarkerKey, "true");
    }
  }

  /** The guarded parse of the stored user record (auth.ts:30-39) */
  method RestoreUserInfo(local: Storage, parse: string -> Option<UserInfo>) returns (parsed: Option<UserInfo>)
    modifies local
    ensures parsed == RestoredUserInfo(Lookup(old(local.entries), UserInfoKey), parse)
    ensures local.entries == DropUnparsable(old(local.entries), parse)
  {
    var stored := local.GetItem(UserInfoKey);
    parsed := None;
    if stored.Some? && stored.value != "" && stored.value != "undefined" && stored.value != "null" {
      parsed := parse(stored.value);
      if parsed.None? {
        local.RemoveItem(UserInfoKey);
      }
    }
  }

  class AuthStore {
    const local: Storage
    const session: Storage
    const parse: string -> Option<UserInfo>
    const stringify: UserInfo -> string
    var token: string
    var refreshToken: string
    var userInfo: Option<UserInfo>
    var userType: string
    var rememberMe: bool

    ghost predicate Valid()
      reads this
    {
      local != session
    }

    /** `isLoggedIn` (auth.ts:44) */
    predicate IsLoggedIn()
      reads this
    {
      token != ""
    }

    /** Every in-memory field is what a fresh read of `localStorage` would give. */
    ghost predicate Synced()
      reads this, local
    {
      && token == StoredOr(local.entries, TokenKey, "")
      && refreshToken == StoredOr(local.entries, RefreshTokenKey, "")
      && userType == StoredOr(local.entries, UserTypeKey, DefaultUserType)
      && rememberMe == Remembered(local.entries)
      && userInfo == RestoredUserInfo(Lookup(local.entries, UserInfoKey), parse)
    }

    /** Writing the record and reading it back gives the record again. */
    ghost predicate RoundTrips(info: UserInfo)
      reads this
    {
      WorthParsing(Some(stringify(info))) && parse(stringify(info)) == Some(info)
    }

    /** `useAuthStore()` the first time: session cleanup, then the reads (auth.ts:7-42) */
    constructor (local: Storage, session: Storage,
                 parse: string -> Option<UserInfo>, stringify: UserInfo -> string)
      requires local != session
      modifies local, session
      ensures this.local == local && this.session == session
      ensures this.parse == parse && this.stringify == stringify
      ensures Valid() && Synced()
      ensures session.entries == MarkSession(old(session.entries))
      ensures local.entries == InitialLocal(old(local.entries), old(session.entries), parse)
    {
      var remembered := StartSession(local, session);
      var storedToken := local.GetItem(TokenKey);
      var storedRefresh := local.GetItem(RefreshTokenKey);
      var parsed := RestoreUserInfo(local, parse);
      var storedType := local.GetItem(UserTypeKey);
      this.local := local;
      this.session := session;
      this.parse := parse;
      this.stringify := stringify;
      rememberMe := remembered;
      token := if storedToken.Some? && storedToken.value != "" then storedToken.value else "";
      refreshToken := if storedRefresh.Some? && storedRefresh.value != "" then storedRefresh.value else "";
      userInfo := parsed;
      userType := if storedType.Some? && storedType.value != "" then storedType.value else DefaultUserType;
    }

    method SetToken(newToken: string)
      requires Valid()
      modifies this`token, local
      ensures token == newToken
      ensures local.entries == old(local.entries)[TokenKey := newToken]
      ensures old(Synced()) ==> Synced()
    {
      token := newToken;
      local.SetItem(TokenKey, newToken);
    }

    method SetRefreshToken(newRefreshToken: string)
      requires Valid()
      modifies this`refreshToken, local
      ensures refreshToken == newRefreshToken
      ensures local.entries == old(local.entries)[RefreshTokenKey := newRefreshToken]
      ensures old(Synced()) ==> Synced()
    {
      refreshToken := newRefreshToken;
      local.SetItem(RefreshTokenKey, newRefreshToken);
    }

    /** A missing record removes the entry instead of writing one. */
    method SetUserInfo(info: Option<UserInfo>)
      requires Valid()
      modifies this`userInfo, local
      ensures userInfo == info
      ensures info.Some? ==> local.entries == old(local.entries)[UserInfoKey := stringify(info.value)]
      ensures info.None? ==> local.entries == old(local.entries) - {UserInfoKey}
      ensures old(Synced()) && (info.Some? ==> RoundTrips(info.value)) ==> Synced()
    {
      userInfo := info;
      if info.Some? {
        local.SetItem(UserInfoKey, stringify(info.value));
      } else {
        local.RemoveItem(UserInfoKey);
      }
    }

    /** An empty type would read back as the default `'1'`. */
    method SetUserType(newType: string)
      requires Valid()
      modifies this`userType, local
      ensures userType == newType
      ensures local.entries == old(local.entries)[UserTypeKey := newType]
      ensures old(Synced()) && newType != "" ==> Synced()
    {
      userType := newType;
      local.SetItem(UserTypeKey, newType);
    }

    method SetRememberMe(remember: bool)
      requires Valid()
      modifies this`rememberMe, local
      ensures rememberMe == remember
      ensures local.entries == old(local.entries)[RememberMeKey := if remember then "true" else "false"]
      ensures old(Synced()) ==> Synced()
    {
      rememberMe := remember;
      local.SetItem(RememberMeKey, if remember then "true" else "false");
    }

    /** Resets every field and removes exactly the five login keys (auth.ts:76-87). */
    method Logout()
      requires Valid()
      modifies this, local
      ensures token == "" && refreshToken == "" && userInfo == None
      ensures userType == DefaultUserType && !rememberMe
      ensures local.entries == old(local.entries) - LogoutKeys
      ensures session.entries == old(session.entries)
      ensures !IsLoggedIn() && Synced()
    {
      token := "";
      refreshToken := "";
      userInfo := None;
      userType := DefaultUserType;
      rememberMe := false;
      local.RemoveItem(TokenKey);
      local.RemoveItem(RefreshTokenKey);
      local.RemoveItem(UserTypeKey);
      local.RemoveItem(UserInfoKey);
      local.RemoveItem(RememberMeKey);
    }
  }

  /** While the store is in sync, being logged in means a non-empty token is stored. */
  lemma LoggedInIffTokenStored(store: AuthStore)
    requires store.Synced()
    ensures store.IsLoggedIn() <==> TokenStored(store.local.entries)
  {
  }
}
