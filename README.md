# AukroApi client, modelled in Dafny

The AukroApi `Client` is a session-aware front for the Aukro marketplace's
SOAP web API. A client is built from an identity, a country code, a local
version key, a session handler and a SOAP client. It does three things:

- it adds identification data to every request it sends;
- it keeps a login session in the session handler;
- it forwards any method it does not define to a remote procedure. The
  procedure's name is derived from the method's name.

This project models those three pieces and proves what they promise.

- `MethodName` (`method_name.dfy`) derives the remote procedure name. A
  name that already matches `^do[A-Z]` is used unchanged. Any other name
  becomes `do` followed by the name with ASCII `ucfirst` applied.
- `RequestData` (`request_data.dfy`) covers requests. It holds the fixed base
  map that the constructor builds: `countryId`, `countryCode`, `webapiKey`,
  `localVersion`. It holds the two session fields (`sessionId`,
  `sessionHandle`) that are added while logged in. It holds the right-biased
  merge of the caller's parameters on top of both.
- `AukroClient` (`client.dfy`) is the client as a class. Its mutable field
  is the session-handler reference. The handler is a class whose one field
  `record: Option<Record>` is what `load` returns, with `None` meaning no
  session. The SOAP client is a class that logs every call it receives. It
  answers the n-th call with `respond(n, procedure, request)`, a function
  supplied at construction. That function is the abstract remote side.
- `ClientProperties` (`client_properties.dfy`) holds client sequences built
  only from the class contracts. They cover: a second login after a
  successful one sends nothing and keeps the session; after a logout the client is logged out;
  a failed login stores nothing; swapping in an empty handler logs the
  client out; a logged-in call carries the session handle.
- `Wrappers` (`wrappers.dfy`) holds the `Option` type.

## Model

| member | source | states |
|---|---|---|
| MethodName.FormatMethodName | src/Client.php:113-120 | the result always starts with `do`. A name matching `^do[A-Z]` is returned unchanged. Any other name gives a result two characters longer, whose tail is the name with its first character upper-cased |
| MethodName.HasDoPrefix | src/Client.php:115 | the branch condition: the name's first three characters are `d`, `o` and an ASCII capital |
| MethodName.ToUpper | src/Client.php:119 | the result is an ASCII capital exactly when the input is an ASCII letter. A lower-case letter becomes its own capital (code point minus 32, so `a` gives `A`). Anything else is left unchanged |
| MethodName.UcFirst | src/Client.php:119 | the length is kept. The first character is upper-cased and the rest is untouched |
| MethodName.FormattedHasDoPrefix | src/Client.php:113-120 | a derived name matches `^do[A-Z]` exactly when the input already matched or starts with an ASCII letter |
| MethodName.FormatIdempotentIff | src/Client.php:113-120 | deriving twice equals deriving once exactly when the input matched `^do[A-Z]` or starts with an ASCII letter (`""` gives `do`, then `doDo`) |
| MethodName.FormatRecoverable | src/Client.php:119 | for a lower-case-initial name without the prefix, lower-casing the first character of the derived name's tail gives back the caller's name |
| MethodName.FormatInjective | src/Client.php:119 | two different lower-case-initial names without the prefix never map to the same remote procedure |
| MethodName.PrefixedReachedByPrefixing | src/Client.php:115-119 | every name matching `^do[A-Z]`, which is returned unchanged, is also the prefixing result for some name without the prefix (its tail after `do`). So the unchanged case yields no procedure that prefixing cannot reach. The converse does not hold (`do`, `do1x`), and `GetFoo` and `doGetFoo` reach the same procedure |
| MethodName.GetFooExample | src/Client.php:119 | `getFoo` is sent as `doGetFoo` |
| MethodName.PrefixedExample | src/Client.php:115-117 | `doGetFoo` is sent unchanged |
| MethodName.SellFormFieldsExample | src/Client.php:11 | `getSellFormFieldsExt`, documented on the class, is sent as `doGetSellFormFieldsExt` |
| RequestData.BaseRequestData | src/Client.php:44-49 | the base map has exactly the four keys. `countryId` and `countryCode` both hold the country value, `webapiKey` holds the API key and `localVersion` holds the version key |
| RequestData.SessionFields | src/Client.php:87-92 | logged out, no session fields are added. Logged in, exactly `sessionId` and `sessionHandle` are added, both holding the session's `sessionHandlePart` |
| RequestData.Combine | src/Client.php:83-95 | the key set is the union of base, session and caller keys. Caller keys keep the caller's value. Session keys the caller did not supply keep the session value. Base keys supplied by neither keep the base value |
| RequestData.Credentials | src/Client.php:63-66 | the login parameters are exactly `userLogin` = username and `userHashPassword` = password |
| RequestData.LoginRequest | src/Client.php:63-66 | a logged-out login request holds the base keys plus the two credential keys. The credentials carry the identity's values and the other base keys keep their values |
| RequestData.KeyGroupsDisjoint | src/Client.php:44-66 | base keys, session keys and credential keys are pairwise distinct, so the session never overrides a base value |
| RequestData.BaseKeysSurvive | src/Client.php:85-94 | every request holds all four base keys. Each keeps its base value unless the caller supplies that key |
| RequestData.LoggedInSessionKeys | src/Client.php:87-94 | while logged in, `sessionId` and `sessionHandle` equal the session's handle part unless the caller overrides them |
| RequestData.LoggedOutAddsNoSessionKeys | src/Client.php:87-94 | while logged out, the request is the base map merged with the caller's map and nothing else |
| RequestData.LoginRequestContents | src/Client.php:44-66 | the full content of the login request a logged-out client sends |
| AukroClient.CallParams | src/Client.php:99 | a dynamic call's parameters are its first argument if that is set, and the empty map otherwise |
| AukroClient.SessionHandler.Load | src/Client.php:54 | `load` returns the handler's current record |
| AukroClient.SessionHandler.Store | src/Client.php:69 | `store` makes the given record the handler's session |
| AukroClient.SessionHandler.Clear | src/Client.php:80 | `clear` leaves the handler without a session |
| AukroClient.SoapClient.Invoke | src/Client.php:105 | a call is appended to the log. The reply is the remote side's answer for that call's position, procedure and request |
| AukroClient.Client.constructor | src/Client.php:36-50 | the five collaborators are stored, and the request data is the base map of the identity, country and version key |
| AukroClient.Client.IsLogged | src/Client.php:52-55 | the result is true exactly when the current handler holds a session |
| AukroClient.Client.CombineRequestData | src/Client.php:83-95 | the request is `Combine` of the base map, the current session and the caller's map |
| AukroClient.Client.Login | src/Client.php:57-76 | if logged in: no remote call, the session is unchanged, the outcome is done. If logged out: exactly one `doLoginEnc` call with the login request. A success stores the reply as the session; a fault stores nothing and gives `LoginFailed` |
| AukroClient.Client.Logout | src/Client.php:78-81 | afterwards the current handler holds no session |
| AukroClient.Client.SetSessionHandler | src/Client.php:108-111 | the handler is replaced. The session is then whatever the new handler holds |
| AukroClient.Client.Call | src/Client.php:97-106 | exactly one remote call goes to `FormatMethodName(name)` with `Combine(base, session, params)`. Its reply, a fault included, is returned unchanged |
| ClientProperties.LoginTwice | src/Client.php:57-61 | the first login adds at most one remote call. If it succeeds, the second login also succeeds, adds no remote call, and leaves the session exactly as the first login left it |
| ClientProperties.LogoutThenIsLogged | src/Client.php:52-81 | after `logout`, `isLogged` is false whatever the previous state |
| ClientProperties.FailedLoginStoresNothing | src/Client.php:68-75 | starting logged out, a failed login leaves the client logged out. The client is logged in afterwards exactly when login succeeded |
| ClientProperties.SwapToEmptyHandler | src/Client.php:108-111 | after swapping in a handler that holds nothing, `isLogged` is false |
| ClientProperties.LoggedInCallCarriesHandle | src/Client.php:87-105 | a dynamic call made while logged in sends the session handle under both session keys, provided the caller's parameters do not supply those keys themselves |

## Left out

- SOAP transport, XML serialisation and the concrete `SoapClient` are outside this model. The remote side is the `respond` function: a reply record or a fault.
- Concrete session handlers (file, cookie, memory) are outside this model. Each is reduced to one optional record acted on by `load`, `store` and `clear`.
- The regular-expression engine is replaced by the character predicate `HasDoPrefix` for the one anchored pattern `^do[A-Z]`.
- PHP's magic `__call` dispatch and the dynamic `$this->soapClient->$fname(...)` are left out. `Call` takes the method name as a string, and the SOAP client takes the procedure name as a string.
- Call accepts a wider set of names than the source does. PHP never sends the class's own public methods (`login`, `logout`, `isLogged`, `setSessionHandler`, matched without regard to case) through `__call`, but the model's `Call` accepts any name.
- `array_merge` renumbers integer keys and numeric-string keys instead of overriding them. Casting an object argument with `(array)` is also not modelled. Requests are maps from strings to strings, and parameters are string-keyed.
- Key order is not modelled. PHP arrays are ordered, and a request lists base keys, then session keys, then new caller keys. A Dafny `map` has no order, so the model says nothing about that order in the request.
- The exception classes are reduced to outcomes. `DriverRequestFailedException` and `\SoapFault` from the login call both become `LoginFailed`, and the wrapped cause is not kept. A fault from any other call comes back unchanged as `Failure`.
- `ucfirst` on non-ASCII characters and locale-dependent case mapping are left out: only `a`-`z` are upper-cased.
- The `stdClass` shape of replies is left out. A reply is a record with a `sessionHandlePart` and other fields.
- The `Identity` and `CountryCode` value classes are reduced to datatypes with their fields. Their accessors are not modelled.
- Concurrent use of `setSessionHandler` is left out. The model is single-threaded.
