/** The OAuth2 session logic of the HTTP auth gateway: it puts a bearer
    header (section 2.1 of RFC 6750) on every request built while a token
    record is stored, sends 401 responses and only those to the refresh-token
    grant (section 6 of RFC 6749), and on the outcome of that grant either
    merges the new fields into the stored record and replays the original
    request once, or wipes the store and redirects to the login page.

    The transport, the promises and the base gateway are outside: what they
    produce enters as parameters (`RefreshOutcome`, the replay's
    `Settlement`, the base handler's `Settlement`, the base request options). */
module AuthGateway {
  import opened JsValues

  /** Defaults of the gateway's two overridable properties. */
  const DefaultTokenStorageLocation := "token"
  const DefaultAuthorizationHeaderPrefix := "Bearer "

  const RefreshMethod := "POST"
  const RefreshPath := "/oauth/token"
  const FormContentType := "application/x-www-form-urlencoded"
  const Unauthorized := 401

  type Headers = map<string, string>

  /** The static configuration: the OAuth client id and an optional login page. */
  datatype Config = Config(clientId: string, loginUrl: Option<string>)

  /** The store key of the token record, the header prefix and the configuration. */
  datatype Settings = Settings(tokenKey: string, prefix: string, config: Config)

  function DefaultSettings(config: Config): Settings {
    Settings(DefaultTokenStorageLocation, DefaultAuthorizationHeaderPrefix, config)
  }

  /** Options for one outgoing request: its headers and everything else the
      base gateway puts in them (host, port, method, path, ...). */
  datatype RequestOptions = RequestOptions(headers: Headers, rest: Record)

  /** One call of the transport: method, path, data and the optional headers. */
  datatype Call = Call(httpMethod: string, path: string, data: Data, headers: Option<Headers>)

  /** The caller's promise. */
  datatype Settlement = Pending | Resolved(value: Value) | Rejected(reason: Value)

  /** How the refresh request's promise ends: resolved with the parsed
      response, rejected, or never settled. */
  datatype RefreshOutcome = RefreshOk(response: Record) | RefreshFailed | RefreshUnsettled

  /** Everything the gateway's error handling can change: the key/value store,
      the requests it issued, the page location it set, and the caller's promise. */
  datatype Session = Session(store: map<string, Record>, log: seq<Call>, location: Option<string>, settlement: Settlement)

  // ---------------------------------------------------------------------
  // Header injection

  /** The value of the `Authorization` header for a token record. */
  function AuthorizationValue(prefix: string, token: Record): (h: string)
    ensures |prefix| <= |h| && h[..|prefix|] == prefix
    ensures "access_token" !in token ==> h == prefix + "undefined"
  {
    prefix + ValueText(Get(token, "access_token"))
  }

  /** Reads the credential back out of an `Authorization` header, if it
      carries the prefix. */
  function Credential(prefix: string, header: string): (r: Option<string>)
    ensures r.Some? ==> header == prefix + r.value
  {
    if |prefix| <= |header| && header[..|prefix|] == prefix then Some(header[|prefix|..]) else None
  }

  /** The header carries the prefix followed by exactly the stored access
      token's text. */
  lemma AuthorizationCarriesAccessToken(prefix: string, token: Record)
    ensures Credential(prefix, AuthorizationValue(prefix, token)) == Some(ValueText(Get(token, "access_token")))
  {
  }

  /** The `Authorization` header the gateway would add for this store:
      none when no token record is stored. */
  function AuthorizationFor(settings: Settings, store: map<string, Record>): (r: Option<string>)
    ensures r.Some? <==> settings.tokenKey in store
    ensures settings.tokenKey in store ==>
      r == Some(settings.prefix + ValueText(Get(store[settings.tokenKey], "access_token")))
  {
    if settings.tokenKey in store then Some(AuthorizationValue(settings.prefix, store[settings.tokenKey])) else None
  }

  // ---------------------------------------------------------------------
  // The refresh-token grant

  /** `_.extend(token, response)`: the response's fields win, fields the
      response omits keep their values, and no field is dropped. */
  function Merge(token: Record, response: Record): (r: Record)
    ensures r.Keys == token.Keys + response.Keys
    ensures forall k :: k in response ==> r[k] == response[k]
    ensures forall k :: k in token && k !in response ==> r[k] == token[k]
  {
    token + response
  }

  /** The form fields of the refresh-token grant request. */
  function RefreshFields(config: Config, token: Record): (r: map<string, string>)
    ensures r.Keys == {"client_id", "grant_type", "refresh_token"}
    ensures r["client_id"] == config.clientId && r["grant_type"] == "refresh_token"
    ensures r["refresh_token"] == FormText(Get(token, "refresh_token"))
  {
    map["client_id" := config.clientId, "grant_type" := "refresh_token", "refresh_token" := FormText(Get(token, "refresh_token"))]
  }

  /** The refresh request: a form-encoded `POST /oauth/token`. */
  function RefreshCall(settings: Settings, token: Record): (c: Call)
    ensures c.httpMethod == RefreshMethod && c.path == RefreshPath
    ensures c.headers == Some(map["Content-Type" := FormContentType])
    ensures c.data.Form? && c.data.pairs == RefreshFields(settings.config, token)
  {
    Call(RefreshMethod, RefreshPath, Form(RefreshFields(settings.config, token)), Some(map["Content-Type" := FormContentType]))
  }

  /** `data || {}`: the replay never sends falsy data. */
  function ReplayData(d: Data): (r: Data)
    ensures DataTruthy(r)
    ensures DataTruthy(d) ==> r == d
    ensures !DataTruthy(d) ==> r == Obj(map[])
  {
    if DataTruthy(d) then d else Obj(map[])
  }

  /** The original call as it is replayed: same method, path and headers. */
  function ReplayCall(call: Call): (c: Call)
    ensures c.httpMethod == call.httpMethod && c.path == call.path && c.headers == call.headers
    ensures c.data == ReplayData(call.data)
  {
    call.(data := ReplayData(call.data))
  }

  /** Where a failed session sends the page: the configured login page when
      it is a non-empty string, the site root otherwise. Never empty. */
  function RedirectTarget(config: Config): (r: string)
    ensures r != ""
    ensures config.loginUrl.Some? && config.loginUrl.value != "" ==> r == config.loginUrl.value
    ensures config.loginUrl == None || config.loginUrl == Some("") ==> r == "/"
  {
    match config.loginUrl
    case Some(url) => if url != "" then url else "/"
    case None => "/"
  }

  // ---------------------------------------------------------------------
  // The 401 state machine, as functions of the session

  /** `handleFailure`: the whole store is wiped and the page is sent away;
      the caller's promise is left as it was. */
  function Fail(settings: Settings, s: Session): (t: Session)
    ensures t.store == map[] && t.location == Some(RedirectTarget(settings.config))
    ensures t.log == s.log && t.settlement == s.settlement
  {
    s.(store := map[], location := Some(RedirectTarget(settings.config)))
  }

  /** `handleSuccess`: the merged record is written back under the token key
      and the original call is replayed; the replay settles the caller's promise. */
  function Succeed(settings: Settings, s: Session, token: Record, response: Record, call: Call, replay: Settlement): (t: Session)
    ensures t.store == s.store[settings.tokenKey := Merge(token, response)]
    ensures t.log == s.log + [ReplayCall(call)]
    ensures t.location == s.location && t.settlement == replay
  {
    s.(store := s.store[settings.tokenKey := Merge(token, response)], log := s.log + [ReplayCall(call)], settlement := replay)
  }

  /** One run of `handle401` for a failed `call`, given how the refresh request
      and the replayed call end. */
  function Handle401Step(settings: Settings, s: Session, call: Call, refresh: RefreshOutcome, replay: Settlement): (t: Session)
    // no stored token: no network call, wipe and redirect, promise untouched
    ensures settings.tokenKey !in s.store ==>
      t.log == s.log && t.store == map[] && t.location == Some(RedirectTarget(settings.config)) && t.settlement == s.settlement
    // a stored token: exactly one refresh request, issued first
    ensures settings.tokenKey in s.store ==>
      |t.log| > |s.log| && t.log[..|s.log| + 1] == s.log + [RefreshCall(settings, s.store[settings.tokenKey])]
    // refresh succeeded: merged record under the same key, nothing else in the
    // store changes, one replay, and the replay settles the promise
    ensures settings.tokenKey in s.store && refresh.RefreshOk? ==>
      && t.store.Keys == s.store.Keys
      && t.store[settings.tokenKey] == Merge(s.store[settings.tokenKey], refresh.response)
      && (forall k :: k in s.store && k != settings.tokenKey ==> t.store[k] == s.store[k])
      && t.log == s.log + [RefreshCall(settings, s.store[settings.tokenKey]), ReplayCall(call)]
      && t.location == s.location && t.settlement == replay
    // refresh failed: wipe and redirect, promise untouched, no replay
    ensures settings.tokenKey in s.store && refresh.RefreshFailed? ==>
      t.log == s.log + [RefreshCall(settings, s.store[settings.tokenKey])]
      && t.store == map[] && t.location == Some(RedirectTarget(settings.config)) && t.settlement == s.settlement
    // refresh never settles: nothing but the refresh request happens
    ensures settings.tokenKey in s.store && refresh.RefreshUnsettled? ==>
      t == s.(log := s.log + [RefreshCall(settings, s.store[settings.tokenKey])])
  {
    if settings.tokenKey !in s.store then
      Fail(settings, s)
    else
      var token := s.store[settings.tokenKey];
      var sent := s.(log := s.log + [RefreshCall(settings, token)]);
      match refresh
      case RefreshOk(response) => Succeed(settings, sent, token, response, call, replay)
      case RefreshFailed => Fail(settings, sent)
      case RefreshUnsettled => sent
  }

  /** One error response reaching `handleError`. `delegated` is how the base
      gateway's handler settles the caller's promise for a non-401 status. */
  datatype ErrorEvent = ErrorEvent(status: int, call: Call, refresh: RefreshOutcome, replay: Settlement, delegated: Settlement)

  /** `handleError`: 401 goes to the refresh flow, everything else to the base
      handler. Each error comes with its own caller's promise, pending when the
      error arrives; `settlement` becomes that promise's state. */
  function HandleErrorStep(settings: Settings, s: Session, e: ErrorEvent): (t: Session)
    ensures e.status == Unauthorized ==> t == Handle401Step(settings, s.(settlement := Pending), e.call, e.refresh, e.replay)
    ensures e.status != Unauthorized ==> t.store == s.store && t.log == s.log && t.location == s.location
    ensures e.status != Unauthorized ==> t.settlement == e.delegated
    // a 401 settles the caller's promise only through a successful refresh's replay
    ensures e.status == Unauthorized && !(settings.tokenKey in s.store && e.refresh.RefreshOk?) ==>
      t.settlement == Pending
  {
    var arrived := s.(settlement := Pending);
    if e.status == Unauthorized then Handle401Step(settings, arrived, e.call, e.refresh, e.replay)
    else arrived.(settlement := e.delegated)
  }

  /** A sequence of error responses handled one after another. */
  function Run(settings: Settings, s: Session, events: seq<ErrorEvent>): Session
    decreases |events|
  {
    if events == [] then s else Run(settings, HandleErrorStep(settings, s, events[0]), events[1..])
  }

  // ---------------------------------------------------------------------
  // Properties of whole runs

  /** The gateway writes only the token key: every other store entry is
      either kept as it was or wiped by a clear, never changed. */
  lemma {:induction false} RunKeepsOtherKeys(settings: Settings, s: Session, events: seq<ErrorEvent>, k: string)
    requires k != settings.tokenKey
    ensures var t := Run(settings, s, events);
      k in t.store ==> k in s.store && t.store[k] == s.store[k]
    decreases |events|
  {
    if events != [] {
      RunKeepsOtherKeys(settings, HandleErrorStep(settings, s, events[0]), events[1..], k);
    }
  }

  /** The log only grows, by at most a refresh request and a replay per error. */
  lemma {:induction false} RunLogAppendOnly(settings: Settings, s: Session, events: seq<ErrorEvent>)
    ensures var t := Run(settings, s, events);
      |s.log| <= |t.log| <= |s.log| + 2 * |events| && t.log[..|s.log|] == s.log
    decreases |events|
  {
    if events != [] {
      var s1 := HandleErrorStep(settings, s, events[0]);
      RunLogAppendOnly(settings, s1, events[1..]);
      var t := Run(settings, s, events);
      assert t.log[..|s.log|] == t.log[..|s1.log|][..|s.log|];
    }
  }

  /** A stored token record has a non-empty access token. */
  predicate HasAccessToken(token: Record) {
    "access_token" in token && Truthy(token["access_token"])
  }

  predicate TokenInvariant(settings: Settings, store: map<string, Record>) {
    settings.tokenKey in store ==> HasAccessToken(store[settings.tokenKey])
  }

  /** A refresh response that either omits the access token or carries a non-empty one. */
  predicate KeepsAccessToken(e: ErrorEvent) {
    e.refresh.RefreshOk? ==>
      "access_token" !in e.refresh.response || Truthy(e.refresh.response["access_token"])
  }

  /** The stored record keeps a non-empty access token across any run, as long
      as no refresh response blanks it: merging retains the old token when the
      response omits it, and clearing leaves no record at all. */
  lemma {:induction false} RunKeepsTokenInvariant(settings: Settings, s: Session, events: seq<ErrorEvent>)
    requires TokenInvariant(settings, s.store)
    requires forall i :: 0 <= i < |events| ==> KeepsAccessToken(events[i])
    ensures TokenInvariant(settings, Run(settings, s, events).store)
    decreases |events|
  {
    if events != [] {
      var s1 := HandleErrorStep(settings, s, events[0]);
      assert KeepsAccessToken(events[0]);
      assert TokenInvariant(settings, s1.store);
      RunKeepsTokenInvariant(settings, s1, events[1..]);
    }
  }

  /** After a successful refresh, the next request built carries the new
      access token, or the old one when the response omitted it. */
  lemma ReplayUsesRefreshedToken(settings: Settings, s: Session, call: Call, response: Record, replay: Settlement)
    requires settings.tokenKey in s.store
    ensures var t := Handle401Step(settings, s, call, RefreshOk(response), replay);
      AuthorizationFor(settings, t.store) == Some(settings.prefix + ValueText(
        if "access_token" in response then Some(response["access_token"]) else Get(s.store[settings.tokenKey], "access_token")))
  {
  }

  // ---------------------------------------------------------------------
  // The gateway object

  class HttpAuthGateway {
    const settings: Settings
    var store: map<string, Record>
    var log: seq<Call>
    var location: Option<string>
    var settlement: Settlement

    /** A gateway with the default token key and prefix over an existing store. */
    constructor (config: Config, initial: map<string, Record>)
      ensures settings == Settings("token", "Bearer ", config)
      ensures store == initial && log == [] && location == None && settlement == Pending
    {
      settings := DefaultSettings(config);
      store := initial;
      log := [];
      location := None;
      settlement := Pending;
    }

    function Snapshot(): Session
      reads this
    {
      Session(store, log, location, settlement)
    }

    /** `getRequestOptions`: the base options, with `Authorization` set from
        the stored token record when there is one and nothing else changed. */
    method GetRequestOptions(base: RequestOptions) returns (options: RequestOptions)
      ensures options.rest == base.rest
      ensures settings.tokenKey !in store ==> options == base
      ensures settings.tokenKey in store ==>
        options.headers == base.headers["Authorization" := settings.prefix + ValueText(Get(store[settings.tokenKey], "access_token"))]
      ensures AuthorizationFor(settings, store).Some? ==>
        options.headers == base.headers["Authorization" := AuthorizationFor(settings, store).value]
    {
      options := base;
      if settings.tokenKey in store {
        var token := store[settings.tokenKey];
        options := options.(headers := options.headers["Authorization" := AuthorizationValue(settings.prefix, token)]);
      }
    }

    /** `handleError`: only a 401 enters the refresh flow; any other status is
        settled by the base handler. */
    method HandleError(status: int, call: Call, refresh: RefreshOutcome, replay: Settlement, delegated: Settlement)
      modifies this
      ensures Snapshot() == HandleErrorStep(settings, old(Snapshot()), ErrorEvent(status, call, refresh, replay, delegated))
    {
      settlement := Pending;
      if status == Unauthorized {
        Handle401(call, refresh, replay);
        return;
      }
      settlement := delegated;
    }

    /** `handle401`: wipe and redirect without a token; otherwise issue the
        refresh request and act on its outcome. */
    method Handle401(call: Call, refresh: RefreshOutcome, replay: Settlement)
      modifies this
      ensures Snapshot() == Handle401Step(settings, old(Snapshot()), call, refresh, replay)
    {
      if settings.tokenKey !in store {
        HandleFailure();
        return;
      }
      var token := store[settings.tokenKey];
      log := log + [RefreshCall(settings, token)];
      match refresh {
        case RefreshOk(response) => HandleSuccess(token, response, call, replay);
        case RefreshFailed => HandleFailure();
        case RefreshUnsettled =>
      }
    }

    /** The success callback: merge, write back, replay. */
    method HandleSuccess(token: Record, response: Record, call: Call, replay: Settlement)
      modifies this
      ensures Snapshot() == Succeed(settings, old(Snapshot()), token, response, call, replay)
    {
      var merged := Merge(token, response);
      store := store[settings.tokenKey := merged];
      log := log + [ReplayCall(call)];
      settlement := replay;
    }

    /** The failure callback: clear the whole store and redirect. */
    method HandleFailure()
      modifies this
      ensures Snapshot() == Fail(settings, old(Snapshot()))
    {
      store := map[];
      location := Some(RedirectTarget(settings.config));
    }
  }
}
