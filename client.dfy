/**
 * The client itself (class Client): it holds the identification data, a
 * replaceable session handler and the SOAP client, and it is either logged
 * in or logged out according to what the current session handler holds.
 */
module AukroClient {
  import opened Wrappers
  import opened MethodName
  import opened RequestData

  /** One request as it reached the SOAP layer. */
  datatype SentCall = SentCall(procedure: string, request: RequestMap)

  /** What a remote procedure gives back: a record, or a driver or SOAP fault. */
  datatype Reply = Success(record: Record) | Failure

  /** The outcome of a login: done (now or already), or the single login error. */
  datatype LoginOutcome = LoggedIn | LoginFailed

  /** The remote procedure used to log in. */
  const LoginProcedure: string := "doLoginEnc"

  /**
   * The store of the current session: `record` is what `load` gives back,
   * None standing for "no session".
   */
  class SessionHandler {
    var record: Option<Record>

    constructor (initial: Option<Record>)
      ensures record == initial
    {
      record := initial;
    }

    method Load() returns (r: Option<Record>)
      ensures r == record
    {
      r := record;
    }

    method Store(rec: Record)
      modifies this
      ensures record == Some(rec)
    {
      record := Some(rec);
    }

    method Clear()
      modifies this
      ensures record == None
    {
      record := None;
    }
  }

  /**
   * The SOAP layer seen from the client.  `log` lists every call that
   * reached it; the reply to the n-th call is `respond(n, procedure, request)`,
   * so replies may differ between calls but are otherwise unconstrained.
   */
  class SoapClient {
    const respond: (nat, string, RequestMap) -> Reply
    var log: seq<SentCall>

    constructor (respond: (nat, string, RequestMap) -> Reply)
      ensures this.respond == respond && log == []
    {
      this.respond := respond;
      log := [];
    }

    method Invoke(procedure: string, request: RequestMap) returns (r: Reply)
      modifies this
      ensures log == old(log) + [SentCall(procedure, request)]
      ensures r == respond(|old(log)|, procedure, request)
    {
      r := respond(|log|, procedure, request);
      log := log + [SentCall(procedure, request)];
    }
  }

  /** The parameters of a dynamic call: its first argument if it is set, else none. */
  function CallParams(arguments: seq<Option<RequestMap>>): (params: RequestMap)
    ensures |arguments| > 0 && arguments[0].Some? ==> params == arguments[0].value
    ensures (|arguments| == 0 || arguments[0].None?) ==> params == map[]
  {
    if |arguments| > 0 && arguments[0].Some? then arguments[0].value else map[]
  }

  class Client {
    const identity: Identity
    const countryCode: CountryCode
    const versionKey: string
    const requestData: RequestMap
    var sessionHandler: SessionHandler
    const soapClient: SoapClient

    constructor (identity: Identity, countryCode: CountryCode, versionKey: string,
                 sessionHandler: SessionHandler, soapClient: SoapClient)
      ensures this.identity == identity && this.countryCode == countryCode && this.versionKey == versionKey
      ensures this.sessionHandler == sessionHandler && this.soapClient == soapClient
      ensures requestData == BaseRequestData(identity, countryCode, versionKey)
    {
      this.identity := identity;
      this.countryCode := countryCode;
      this.versionKey := versionKey;
      this.sessionHandler := sessionHandler;
      this.soapClient := soapClient;
      requestData := BaseRequestData(identity, countryCode, versionKey);
    }

    /** The session held by the current handler. */
    ghost function Session(): Option<Record>
      reads this, sessionHandler
    {
      sessionHandler.record
    }

    /** Logged in exactly when the current handler holds a session. */
    method IsLogged() returns (logged: bool)
      ensures logged <==> Session().Some?
    {
      var loaded := sessionHandler.Load();
      logged := loaded.Some?;
    }

    /** The request for caller parameters `data`, given the current session. */
    method CombineRequestData(data: RequestMap) returns (request: RequestMap)
      ensures request == Combine(requestData, Session(), data)
    {
      request := requestData;
      var logged := IsLogged();
      if logged {
        var loginData := sessionHandler.Load();
        request := request[SessionIdKey := loginData.value.sessionHandlePart];
        request := request[SessionHandleKey := loginData.value.sessionHandlePart];
      }
      request := request + data;
    }

    /**
     * Logs in unless already logged in.  A logged-in client sends nothing and
     * keeps its session; a logged-out one sends its credentials to the login
     * procedure, keeps the reply as its session on success, and on a fault
     * stores nothing and reports LoginFailed.
     */
    method Login() returns (outcome: LoginOutcome)
      modifies sessionHandler, soapClient
      ensures old(Session()).Some? ==>
        outcome == LoggedIn && Session() == old(Session()) && soapClient.log == old(soapClient.log)
      ensures old(Session()).None? ==>
        var request := LoginRequest(requestData, identity);
        var reply := soapClient.respond(|old(soapClient.log)|, LoginProcedure, request);
        && soapClient.log == old(soapClient.log) + [SentCall(LoginProcedure, request)]
        && (reply.Success? ==> outcome == LoggedIn && Session() == Some(reply.record))
        && (reply.Failure? ==> outcome == LoginFailed && Session() == None)
    {
      var logged := IsLogged();
      if logged {
        return LoggedIn;
      }
      var request := CombineRequestData(Credentials(identity));
      var reply := soapClient.Invoke(LoginProcedure, request);
      match reply
      case Success(rec) =>
        sessionHandler.Store(rec);
        outcome := LoggedIn;
      case Failure =>
        outcome := LoginFailed;
    }

    /** Clears whatever session the current handler holds. */
    method Logout()
      modifies sessionHandler
      ensures Session() == None
    {
      sessionHandler.Clear();
    }

    /** Replaces the session handler; the session is whatever the new one holds. */
    method SetSessionHandler(handler: SessionHandler)
      modifies this
      ensures sessionHandler == handler && Session() == handler.record
    {
      sessionHandler := handler;
    }

    /**
     * A call under any other name: the enriched request goes to the derived
     * procedure, and its reply, fault included, is returned as it is.
     */
    method Call(name: string, arguments: seq<Option<RequestMap>>) returns (reply: Reply)
      modifies soapClient
      ensures var procedure := FormatMethodName(name);
        var request := Combine(requestData, Session(), CallParams(arguments));
        && soapClient.log == old(soapClient.log) + [SentCall(procedure, request)]
        && reply == soapClient.respond(|old(soapClient.log)|, procedure, request)
    {
      var params := CallParams(arguments);
      var request := CombineRequestData(params);
      var fname := FormatMethodName(name);
      reply := soapClient.Invoke(fname, request);
    }
  }
}
