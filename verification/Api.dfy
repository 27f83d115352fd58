/** The HTTP client's session handling: `setAuthToken` keeps the persisted `token` key and
    the default `Authorization` header in step, and a request interceptor copies the stored
    token into every outgoing request as a bearer credential. */
module Api {
  import opened Ui
  import opened JsText

  const BaseUrl: string := "http://172.20.10.2:5000"
  const TokenKey: string := "token"
  const AuthorizationHeader: string := "Authorization"
  const ContentTypeHeader: string := "Content-Type"
  const JsonContentType: string := "application/json"
  /** The `Accept` header axios puts in its common defaults. */
  const AcceptHeader: string := "Accept"
  const DefaultAccept: string := "application/json, text/plain, */*"

  /** `Bearer <token>`. */
  function Bearer(token: string): string {
    "Bearer " + token
  }

  /** A token argument is used when it is a non-empty string; `null`, `undefined` and `''`
      are all falsy. */
  predicate IsTruthyToken(token: Option<string>) {
    token.Some? && Truthy(token.value)
  }

  /** The persisted key-value store after `setAuthToken(token)`. */
  function StorageAfter(storage: map<string, string>, token: Option<string>): (r: map<string, string>)
    ensures TokenKey in r <==> IsTruthyToken(token)
    ensures IsTruthyToken(token) ==> r[TokenKey] == token.value
    ensures forall k :: k != TokenKey ==> (k in r <==> k in storage)
    ensures forall k :: k != TokenKey && k in r ==> r[k] == storage[k]
  {
    if IsTruthyToken(token) then storage[TokenKey := token.value] else storage - {TokenKey}
  }

  /** The default common headers after `setAuthToken(token)`. */
  function CommonHeadersAfter(headers: map<string, string>, token: Option<string>): (r: map<string, string>)
    ensures AuthorizationHeader in r <==> IsTruthyToken(token)
    ensures IsTruthyToken(token) ==> r[AuthorizationHeader] == Bearer(token.value)
    ensures forall k :: k != AuthorizationHeader ==> (k in r <==> k in headers)
    ensures forall k :: k != AuthorizationHeader && k in r ==> r[k] == headers[k]
  {
    if IsTruthyToken(token) then headers[AuthorizationHeader := Bearer(token.value)] else headers - {AuthorizationHeader}
  }

  /** `setAuthToken` is idempotent. */
  lemma SetAuthTokenIdempotent(storage: map<string, string>, headers: map<string, string>, token: Option<string>)
    ensures StorageAfter(StorageAfter(storage, token), token) == StorageAfter(storage, token)
    ensures CommonHeadersAfter(CommonHeadersAfter(headers, token), token) == CommonHeadersAfter(headers, token)
  {
  }

  /** The request interceptor: with a truthy stored token the request's `Authorization`
      becomes `Bearer <token>`; otherwise the headers pass unchanged. */
  function Intercepted(storage: map<string, string>, headers: map<string, string>): (r: map<string, string>)
    ensures TokenKey in storage && Truthy(storage[TokenKey]) ==>
      AuthorizationHeader in r && r[AuthorizationHeader] == Bearer(storage[TokenKey])
      && forall k :: k != AuthorizationHeader ==> (k in r <==> k in headers) && (k in r ==> r[k] == headers[k])
    ensures !(TokenKey in storage && Truthy(storage[TokenKey])) ==> r == headers
  {
    if TokenKey in storage && Truthy(storage[TokenKey]) then headers[AuthorizationHeader := Bearer(storage[TokenKey])] else headers
  }

  /** The headers a request starts with before the interceptor: the common defaults,
      overridden by the instance defaults, overridden by the call's own headers. */
  function MergedHeaders(common: map<string, string>, instance: map<string, string>, extra: map<string, string>): (r: map<string, string>)
    ensures forall k :: k in r <==> k in common || k in instance || k in extra
    ensures forall k :: k in extra ==> r[k] == extra[k]
    ensures forall k :: k !in extra && k in instance ==> r[k] == instance[k]
    ensures forall k :: k !in extra && k !in instance && k in common ==> r[k] == common[k]
  {
    common + instance + extra
  }

  /** The headers a request goes out with. */
  function SentHeaders(storage: map<string, string>, common: map<string, string>, instance: map<string, string>,
                       extra: map<string, string>): (r: map<string, string>)
    ensures TokenKey in storage && Truthy(storage[TokenKey]) ==>
      AuthorizationHeader in r && r[AuthorizationHeader] == Bearer(storage[TokenKey])
    ensures !(TokenKey in storage && Truthy(storage[TokenKey])) ==>
      (AuthorizationHeader in r <==> AuthorizationHeader in common || AuthorizationHeader in instance || AuthorizationHeader in extra)
    ensures forall k :: k != AuthorizationHeader ==> (k in r <==> k in common || k in instance || k in extra)
    ensures forall k :: k != AuthorizationHeader && k in extra ==> r[k] == extra[k]
    ensures forall k :: k != AuthorizationHeader && k !in extra && k in instance ==> r[k] == instance[k]
    ensures forall k :: k != AuthorizationHeader && k !in extra && k !in instance && k in common ==> r[k] == common[k]
  {
    Intercepted(storage, MergedHeaders(common, instance, extra))
  }

  /** After `setAuthToken(t)` with a truthy `t`, every request carries `Bearer t`, whatever
      the call's own headers. */
  lemma LoggedInRequestsCarryToken(storage: map<string, string>, common: map<string, string>,
                                   instance: map<string, string>, extra: map<string, string>, t: string)
    requires Truthy(t)
    ensures var sent := SentHeaders(StorageAfter(storage, Some(t)), CommonHeadersAfter(common, Some(t)), instance, extra);
            AuthorizationHeader in sent && sent[AuthorizationHeader] == Bearer(t)
  {
  }

  /** After `setAuthToken(null)` no `Authorization` comes from the defaults or the store: a
      request carries one only if it was given one. */
  lemma LoggedOutRequestsCarryNoToken(storage: map<string, string>, common: map<string, string>,
                                      instance: map<string, string>, extra: map<string, string>)
    requires AuthorizationHeader !in instance
    ensures var sent := SentHeaders(StorageAfter(storage, None), CommonHeadersAfter(common, None), instance, extra);
            AuthorizationHeader in sent <==> AuthorizationHeader in extra
  {
  }

  /** The configured client together with the device's persisted store. */
  class Client {
    /** The `baseURL` given to `axios.create`. */
    var baseUrl: string
    /** AsyncStorage. */
    var storage: map<string, string>
    /** `api.defaults.headers.common`. */
    var commonHeaders: map<string, string>
    /** The headers given to `axios.create`. */
    var instanceHeaders: map<string, string>

    /** The default header, when present, mirrors the stored token; the instance headers
        never carry a credential. */
    ghost predicate Valid()
      reads this
    {
      && (AuthorizationHeader in commonHeaders ==>
            TokenKey in storage && commonHeaders[AuthorizationHeader] == Bearer(storage[TokenKey]))
      && AuthorizationHeader !in instanceHeaders
    }

    /** The client as the module creates it, over whatever the store held from an earlier run. */
    constructor (persisted: map<string, string>)
      ensures Valid()
      ensures baseUrl == BaseUrl && storage == persisted
      ensures commonHeaders == map[AcceptHeader := DefaultAccept]
      ensures instanceHeaders == map[ContentTypeHeader := JsonContentType]
    {
      baseUrl := BaseUrl;
      storage := persisted;
      commonHeaders := map[AcceptHeader := DefaultAccept];
      instanceHeaders := map[ContentTypeHeader := JsonContentType];
    }

    /** Signed in: a token is stored. */
    function Authenticated(): bool
      reads this
    {
      TokenKey in storage
    }

    /** `setAuthToken(token)`: store and mirror a truthy token, or forget it. */
    method SetAuthToken(token: Option<string>)
      requires Valid()
      modifies this`storage, this`commonHeaders
      ensures Valid()
      ensures storage == StorageAfter(old(storage), token)
      ensures commonHeaders == CommonHeadersAfter(old(commonHeaders), token)
      ensures Authenticated() <==> IsTruthyToken(token)
    {
      if token.Some? && Truthy(token.value) {
        commonHeaders := commonHeaders[AuthorizationHeader := Bearer(token.value)];
        storage := storage[TokenKey := token.value];
      } else {
        commonHeaders := commonHeaders - {AuthorizationHeader};
        storage := storage - {TokenKey};
      }
    }

    /** The interceptor applied to one request's headers; it only reads the store. */
    method InterceptRequest(headers: map<string, string>) returns (out: map<string, string>)
      ensures out == Intercepted(storage, headers)
      ensures Authenticated() && Truthy(storage[TokenKey]) ==> out[AuthorizationHeader] == Bearer(storage[TokenKey])
    {
      var token := if TokenKey in storage then Some(storage[TokenKey]) else None;
      if token.Some? && Truthy(token.value) {
        out := headers[AuthorizationHeader := Bearer(token.value)];
      } else {
        out := headers;
      }
    }

    /** The headers one request goes out with, given the call's own headers. */
    method RequestHeaders(extra: map<string, string>) returns (sent: map<string, string>)
      ensures sent == SentHeaders(storage, commonHeaders, instanceHeaders, extra)
      ensures Valid() && Authenticated() && Truthy(storage[TokenKey]) ==> sent[AuthorizationHeader] == Bearer(storage[TokenKey])
      ensures Valid() && !Authenticated() ==> (AuthorizationHeader in sent <==> AuthorizationHeader in commonHeaders + extra)
    {
      sent := InterceptRequest(MergedHeaders(commonHeaders, instanceHeaders, extra));
    }
  }

  /** A session from sign-in to sign-out on a fresh client: the requests in between carry
      the token, the ones after it carry none unless given one, and the content type and the
      default `Accept` stay. */
  method SessionLifecycle(persisted: map<string, string>, t: string, extra: map<string, string>)
    returns (during: map<string, string>, after: map<string, string>)
    requires Truthy(t)
    ensures AuthorizationHeader in during && during[AuthorizationHeader] == Bearer(t)
    ensures AuthorizationHeader in after <==> AuthorizationHeader in extra
    ensures ContentTypeHeader !in extra ==>
      && ContentTypeHeader in during && during[ContentTypeHeader] == JsonContentType
      && ContentTypeHeader in after && after[ContentTypeHeader] == JsonContentType
    ensures AcceptHeader !in extra ==>
      && AcceptHeader in during && during[AcceptHeader] == DefaultAccept
      && AcceptHeader in after && after[AcceptHeader] == DefaultAccept
  {
    var api := new Client(persisted);
    api.SetAuthToken(Some(t));
    during := api.RequestHeaders(extra);
    api.SetAuthToken(None);
    after := api.RequestHeaders(extra);
  }
}
