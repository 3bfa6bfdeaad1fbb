/**
 * The request maps the client sends: the base identification map built at
 * construction, the two session fields added while logged in, and the
 * right-biased merge of the caller's own parameters on top
 * (Client::__construct and Client::combineRequestData).
 */
module RequestData {
  import opened Wrappers

  /** A request as sent to the SOAP layer: string keys to string values. */
  type RequestMap = map<string, string>

  /** The account the client acts for; the password is already hashed. */
  datatype Identity = Identity(username: string, apiKey: string, password: string)

  /** The marketplace the client talks to. */
  datatype CountryCode = CountryCode(value: string)

  /**
   * A record returned by a remote procedure.  A login reply is kept as the
   * session record; the client reads only its `sessionHandlePart`.
   */
  datatype Record = Record(sessionHandlePart: string, fields: map<string, string>)

  const CountryIdKey: string := "countryId"
  const CountryCodeKey: string := "countryCode"
  const WebapiKeyKey: string := "webapiKey"
  const LocalVersionKey: string := "localVersion"
  const SessionIdKey: string := "sessionId"
  const SessionHandleKey: string := "sessionHandle"
  const UserLoginKey: string := "userLogin"
  const UserHashPasswordKey: string := "userHashPassword"

  const BaseKeys: set<string> := {CountryIdKey, CountryCodeKey, WebapiKeyKey, LocalVersionKey}
  const SessionKeys: set<string> := {SessionIdKey, SessionHandleKey}

  /**
   * The map computed once by the constructor: the country value under both
   * the old and the new key name, the API key and the local version key.
   */
  function BaseRequestData(identity: Identity, country: CountryCode, versionKey: string): (m: RequestMap)
    ensures m.Keys == BaseKeys
    ensures m[CountryIdKey] == country.value && m[CountryCodeKey] == country.value
    ensures m[WebapiKeyKey] == identity.apiKey && m[LocalVersionKey] == versionKey
  {
    map[CountryIdKey := country.value, CountryCodeKey := country.value,
        WebapiKeyKey := identity.apiKey, LocalVersionKey := versionKey]
  }

  /** The fields a session contributes: none when logged out, both handle keys when logged in. */
  function SessionFields(session: Option<Record>): (m: RequestMap)
    ensures session.None? ==> m == map[]
    ensures session.Some? ==> m.Keys == SessionKeys
    ensures forall k :: k in m ==> m[k] == session.value.sessionHandlePart
  {
    match session
    case None => map[]
    case Some(rec) => map[SessionIdKey := rec.sessionHandlePart, SessionHandleKey := rec.sessionHandlePart]
  }

  /**
   * The request sent for caller parameters `data`: the base map, then the
   * session fields, then `data`, each later source winning on a shared key.
   */
  function Combine(base: RequestMap, session: Option<Record>, data: RequestMap): (r: RequestMap)
    ensures r.Keys == base.Keys + SessionFields(session).Keys + data.Keys
    ensures forall k :: k in data ==> r[k] == data[k]
    ensures forall k :: k in SessionFields(session) && k !in data ==> r[k] == SessionFields(session)[k]
    ensures forall k :: k in base && k !in SessionFields(session) && k !in data ==> r[k] == base[k]
  {
    base + SessionFields(session) + data
  }

  /** The caller parameters of a login request. */
  function Credentials(identity: Identity): (m: RequestMap)
    ensures m.Keys == {UserLoginKey, UserHashPasswordKey}
    ensures m[UserLoginKey] == identity.username && m[UserHashPasswordKey] == identity.password
  {
    map[UserLoginKey := identity.username, UserHashPasswordKey := identity.password]
  }

  /** The request a logged-out client sends to the login procedure. */
  function LoginRequest(base: RequestMap, identity: Identity): (r: RequestMap)
    ensures r.Keys == base.Keys + {UserLoginKey, UserHashPasswordKey}
    ensures r[UserLoginKey] == identity.username && r[UserHashPasswordKey] == identity.password
    ensures forall k :: k in base && k !in Credentials(identity) ==> r[k] == base[k]
  {
    Combine(base, None, Credentials(identity))
  }

  /** The base keys, the session keys and the login keys are pairwise distinct. */
  lemma KeyGroupsDisjoint()
    ensures BaseKeys !! SessionKeys
    ensures BaseKeys !! {UserLoginKey, UserHashPasswordKey}
    ensures SessionKeys !! {UserLoginKey, UserHashPasswordKey}
  {
  }

  /**
   * Every outgoing request carries the four identification keys; each keeps
   * its base value unless the caller supplies that key.
   */
  lemma {:induction false} BaseKeysSurvive(identity: Identity, country: CountryCode, versionKey: string,
                                           session: Option<Record>, data: RequestMap, k: string)
    requires k in BaseKeys
    ensures var r := Combine(BaseRequestData(identity, country, versionKey), session, data);
      k in r && r[k] == if k in data then data[k] else BaseRequestData(identity, country, versionKey)[k]
  {
    KeyGroupsDisjoint();
  }

  /**
   * While logged in, both session keys carry the session's handle part
   * unless the caller overrides them.
   */
  lemma LoggedInSessionKeys(base: RequestMap, rec: Record, data: RequestMap, k: string)
    requires k in SessionKeys && k !in data
    ensures var r := Combine(base, Some(rec), data); k in r && r[k] == rec.sessionHandlePart
  {
  }

  /** While logged out, the client adds neither session key itself. */
  lemma LoggedOutAddsNoSessionKeys(base: RequestMap, data: RequestMap)
    ensures Combine(base, None, data) == base + data
  {
  }

  /** A logged-out client's login request: the base map plus the two credential keys. */
  lemma {:induction false} LoginRequestContents(identity: Identity, country: CountryCode, versionKey: string)
    ensures var r := LoginRequest(BaseRequestData(identity, country, versionKey), identity);
      && r.Keys == BaseKeys + {UserLoginKey, UserHashPasswordKey}
      && r[UserLoginKey] == identity.username && r[UserHashPasswordKey] == identity.password
      && r[CountryIdKey] == country.value && r[CountryCodeKey] == country.value
      && r[WebapiKeyKey] == identity.apiKey && r[LocalVersionKey] == versionKey
  {
    KeyGroupsDisjoint();
  }
}
