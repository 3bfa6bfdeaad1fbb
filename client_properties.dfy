/**
 * Sequences of client operations and what callers can conclude from the
 * contracts of the client alone: login is idempotent, logout always leaves
 * the client logged out, and swapping in an empty handler logs the client out.
 */
module ClientProperties {
  import opened Wrappers
  import opened RequestData
  import opened AukroClient

  /** Two logins in a row reach the login procedure at most once, and never after a success. */
  method LoginTwice(c: Client)
    returns (first: LoginOutcome, second: LoginOutcome, ghost mid: seq<SentCall>, ghost midSession: Option<Record>)
    modifies c.sessionHandler, c.soapClient
    ensures |mid| <= |old(c.soapClient.log)| + 1
    ensures first == LoggedIn ==>
      && second == LoggedIn && midSession.Some?
      && c.Session() == midSession && c.soapClient.log == mid
  {
    first := c.Login();
    mid := c.soapClient.log;
    midSession := c.Session();
    second := c.Login();
  }

  /** After a logout the client reports that it is not logged in, whatever it was before. */
  method LogoutThenIsLogged(c: Client) returns (logged: bool)
    modifies c.sessionHandler
    ensures !logged && c.Session() == None
  {
    c.Logout();
    logged := c.IsLogged();
  }

  /** A failed login leaves a logged-out client logged out. */
  method FailedLoginStoresNothing(c: Client) returns (outcome: LoginOutcome, logged: bool)
    requires c.Session().None?
    modifies c.sessionHandler, c.soapClient
    ensures outcome == LoginFailed ==> !logged
    ensures outcome == LoggedIn <==> logged
  {
    outcome := c.Login();
    logged := c.IsLogged();
  }

  /** Swapping in a handler that holds nothing logs the client out, even if it was logged in. */
  method SwapToEmptyHandler(c: Client) returns (logged: bool)
    modifies c
    ensures !logged
  {
    var empty := new SessionHandler(None);
    c.SetSessionHandler(empty);
    logged := c.IsLogged();
  }

  /**
   * A request sent while logged in carries the session handle under both keys,
   * unless the caller's parameters supply those keys themselves.
   */
  method LoggedInCallCarriesHandle(c: Client, name: string, arguments: seq<Option<RequestMap>>) returns (reply: Reply)
    requires c.Session().Some?
    requires SessionIdKey !in CallParams(arguments) && SessionHandleKey !in CallParams(arguments)
    modifies c.soapClient
    ensures |c.soapClient.log| > 0
    ensures var sent := c.soapClient.log[|c.soapClient.log| - 1].request;
      && SessionIdKey in sent && SessionHandleKey in sent
      && sent[SessionIdKey] == c.Session().value.sessionHandlePart
      && sent[SessionHandleKey] == c.Session().value.sessionHandlePart
  {
    reply := c.Call(name, arguments);
    LoggedInSessionKeys(c.requestData, c.Session().value, CallParams(arguments), SessionIdKey);
    LoggedInSessionKeys(c.requestData, c.Session().value, CallParams(arguments), SessionHandleKey);
  }
}
