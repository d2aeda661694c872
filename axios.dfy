/**
 * The shared HTTP client's two interceptors: every outgoing request gets a Bearer header when a
 * token is stored, and every error response with status 401 removes the stored token before the
 * error is passed on.
 */
module Axios {
  import opened Wrappers
  import opened Js
  import opened Storage

  const TOKEN_STORAGE_KEY := "auth-token"
  const AUTHORIZATION := "Authorization"
  const UNAUTHORIZED := 401

  /** A rejected request: `status` is `error.response.status`, `None` when there is no response. */
  datatype HttpError = HttpError(status: Option<int>)

  /** What the server (or the network) produced for one request. */
  datatype HttpOutcome<T> = Ok(data: T) | Failed(error: HttpError)

  /** The headers a request leaves with, given the storage at that moment. */
  function WithBearer(headers: map<string, string>, items: map<string, string>): (sent: map<string, string>)
    ensures Truthy(Lookup(items, TOKEN_STORAGE_KEY)) ==>
      AUTHORIZATION in sent && sent[AUTHORIZATION] == "Bearer " + items[TOKEN_STORAGE_KEY]
    ensures !Truthy(Lookup(items, TOKEN_STORAGE_KEY)) ==> sent == headers
    ensures forall h :: h != AUTHORIZATION ==> (h in sent <==> h in headers) && (h in sent ==> sent[h] == headers[h])
  {
    var token := Lookup(items, TOKEN_STORAGE_KEY);
    if Truthy(token) then headers[AUTHORIZATION := "Bearer " + token.value] else headers
  }

  /** The storage after the error interceptor has seen `error`. */
  function AfterError(items: map<string, string>, error: HttpError): (after: map<string, string>)
    ensures error.status == Some(UNAUTHORIZED) ==> TOKEN_STORAGE_KEY !in after
    ensures error.status != Some(UNAUTHORIZED) ==> after == items
    ensures forall k :: k != TOKEN_STORAGE_KEY ==> (k in after <==> k in items) && (k in after ==> after[k] == items[k])
  {
    if error.status == Some(UNAUTHORIZED) then items - {TOKEN_STORAGE_KEY} else items
  }

  /** The parts of an outgoing request the interceptor touches. */
  class RequestConfig {
    var headers: map<string, string>

    constructor (headers: map<string, string>)
      ensures this.headers == headers
    {
      this.headers := headers;
    }
  }

  /** The request interceptor: sets `Authorization` in place and hands the same config on. */
  method RequestInterceptor(config: RequestConfig, store: LocalStorage) returns (sent: RequestConfig)
    modifies config
    ensures sent == config
    ensures config.headers == WithBearer(old(config.headers), store.items)
  {
    var token := store.GetItem(TOKEN_STORAGE_KEY);
    if token.Some? && token.value != "" {
      config.headers := config.headers[AUTHORIZATION := "Bearer " + token.value];
    }
    return config;
  }

  /**
   * The response interceptors: a response passes through unchanged; an error is rejected again,
   * unchanged, after a 401 has removed the stored token.
   */
  method ResponseInterceptor<T>(store: LocalStorage, outcome: HttpOutcome<T>) returns (delivered: HttpOutcome<T>)
    modifies store
    ensures delivered == outcome
    ensures outcome.Ok? ==> store.items == old(store.items)
    ensures outcome.Failed? ==> store.items == AfterError(old(store.items), outcome.error)
  {
    if outcome.Failed? && outcome.error.status == Some(UNAUTHORIZED) {
      store.RemoveItem(TOKEN_STORAGE_KEY);
    }
    return outcome;
  }
}
