/** The HTTP client every component calls through: a request hook that
    attaches the stored token as a bearer credential (section 2.1 of
    RFC 6750), and a response hook that treats an authentication failure
    outside a fixed allow-list of messages as an expired session. */
module Api {
  import opened Common
  import opened Sessions

  const AuthorizationHeader := "Authorization"
  const BearerPrefix := "Bearer "

  /** The token the request hook reads: the stored record's token, when the
      record exists and the token is truthy (a non-empty string). */
  function StoredToken(entries: Storage): (t: Option<string>)
    ensures t.Some? <==> UserKey in entries && entries[UserKey].token != ""
    ensures t.Some? ==> t.value == entries[UserKey].token
  {
    match Stored(entries)
    case Some(s) => if s.token != "" then Some(s.token) else None
    case None => None
  }

  /** The headers after the request hook: `Authorization` is set to the
      bearer credential when a token is stored, and nothing else changes. */
  function WithCredential(headers: map<string, string>, entries: Storage): (r: map<string, string>)
    ensures forall k :: k in headers && k != AuthorizationHeader ==> k in r && r[k] == headers[k]
    ensures forall k :: k in r && k != AuthorizationHeader ==> k in headers
    ensures StoredToken(entries).Some? ==>
              AuthorizationHeader in r && r[AuthorizationHeader] == BearerPrefix + StoredToken(entries).value
    ensures StoredToken(entries).None? ==> r == headers
  {
    match StoredToken(entries)
    case Some(t) => headers[AuthorizationHeader := BearerPrefix + t]
    case None => headers
  }

  /** Reads the token back out of an `Authorization` value of the form
      `Bearer <token>`, the credential syntax of section 2.1 of RFC 6750. */
  function BearerToken(value: string): Option<string>
  {
    if |value| >= |BearerPrefix| && value[..|BearerPrefix|] == BearerPrefix
    then Some(value[|BearerPrefix|..])
    else None
  }

  /** A request sent while a token is stored carries exactly that token as
      its bearer credential; with no token, the headers go out untouched. */
  lemma CredentialCarriesStoredToken(headers: map<string, string>, entries: Storage)
    ensures StoredToken(entries).Some? ==>
              BearerToken(WithCredential(headers, entries)[AuthorizationHeader]) == StoredToken(entries)
    ensures StoredToken(entries).None? ==> AuthorizationHeader !in headers ==>
              AuthorizationHeader !in WithCredential(headers, entries)
  {
    if StoredToken(entries).Some? {
      var v := BearerPrefix + StoredToken(entries).value;
      assert v[..|BearerPrefix|] == BearerPrefix;
      assert v[|BearerPrefix|..] == StoredToken(entries).value;
    }
  }

  /** The request configuration the request hook receives and mutates. */
  class RequestConfig {
    const request: Request
    var headers: map<string, string>

    constructor (request: Request, headers: map<string, string>)
      ensures this.request == request && this.headers == headers
    {
      this.request := request;
      this.headers := headers;
    }

    /** The request hook: reads the stored record and returns the same
        configuration object with only its headers updated. */
    method InterceptRequest(storage: LocalStorage) returns (config: RequestConfig)
      modifies this`headers
      ensures config == this
      ensures headers == WithCredential(old(headers), storage.entries)
    {
      var token := StoredToken(storage.entries);
      if token.Some? {
        headers := headers[AuthorizationHeader := BearerPrefix + token.value];
      }
      config := this;
    }
  }

  /** The response hook's success path: the response is passed on as it is. */
  function OnFulfilled<T>(response: T): (r: T)
    ensures r == response
  {
    response
  }

  /** The 401/403 messages that the backend uses for ordinary validation
      failures, which must not end the session. */
  const AllowListedMessages: seq<string> := [
    "Invalid password", "Invalid username", "Server error",
    "Current password is incorrect", "No token provided", "Invalid token"
  ]

  const ExpiryAlert := "Session expired. Please log in again."
  const ExpiryDelayMs: nat := 1000
  const LoginPath := "/"

  /** The expiry condition, one comparison per allow-listed message as the
      hook writes it; an absent message differs from every one of them. */
  function SessionExpired(e: HttpError): (expired: bool)
    ensures expired <==>
              (e.status == Some(401) || e.status == Some(403)) &&
              !(e.message.Some? && e.message.value in AllowListedMessages)
  {
    && (e.status == Some(401) || e.status == Some(403))
    && e.message != Some("Invalid password")
    && e.message != Some("Invalid username")
    && e.message != Some("Server error")
    && e.message != Some("Current password is incorrect")
    && e.message != Some("No token provided")
    && e.message != Some("Invalid token")
  }

  /** What the response hook does with a rejection: it always rejects with
      the same error; on an expired session it also raises the alert and
      schedules the expiry timer. */
  datatype Rejection = Rejection(error: HttpError, alert: Option<string>, expiryTimerMs: Option<nat>)

  function OnRejected(e: HttpError): (r: Rejection)
    ensures r.error == e
    ensures r.expiryTimerMs.Some? <==>
              (e.status == Some(401) || e.status == Some(403)) &&
              !(e.message.Some? && e.message.value in AllowListedMessages)
    ensures r.expiryTimerMs.Some? ==> r.expiryTimerMs.value == ExpiryDelayMs && r.alert == Some(ExpiryAlert)
    ensures r.expiryTimerMs.None? ==> r.alert.None?
  {
    if SessionExpired(e) then Rejection(e, Some(ExpiryAlert), Some(ExpiryDelayMs))
    else Rejection(e, None, None)
  }

  /** A 403 carrying "Invalid password" is an ordinary validation failure. */
  lemma InvalidPasswordKeepsSession()
    ensures OnRejected(HttpError(Some(403), Some("Invalid password"))).expiryTimerMs.None?
  {
  }

  /** The expiry timer's callback, run after the delay: the stored session
      is removed, every other key is kept, and the browser goes to `/`. */
  method FireExpiryTimer(storage: LocalStorage) returns (location: string)
    modifies storage
    ensures storage.entries == old(storage.entries) - {UserKey}
    ensures forall k :: k in old(storage.entries) && k != UserKey ==>
              k in storage.entries && storage.entries[k] == old(storage.entries)[k]
    ensures Stored(storage.entries).None?
    ensures location == LoginPath
  {
    storage.RemoveItem(UserKey);
    location := LoginPath;
  }
}
