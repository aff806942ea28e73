/**
 * Where the client's request interceptor meets the backend's `JwtFilter`:
 * the `Authorization` header one builds is the header the other parses.
 */
module AuthHeader {
  import opened Wrappers
  import ApiService
  import JwtFilter

  /**
   * With a non-empty token stored, every request carries a header from
   * which the filter recovers exactly that token; with none stored, a
   * request that had no `Authorization` header still has none.
   */
  lemma InterceptorFeedsFilter(client: ApiService.Client, headers: map<string, string>)
    ensures client.IsAuthenticated() ==>
      JwtFilter.BearerToken(Get(client.WithAuthorization(headers), "Authorization"))
        == Some(client.storage[ApiService.AUTH_TOKEN])
    ensures !client.IsAuthenticated() && "Authorization" !in headers ==>
      JwtFilter.BearerToken(Get(client.WithAuthorization(headers), "Authorization")) == None
  {
    if client.IsAuthenticated() {
      JwtFilter.BearerRoundTrip(client.storage[ApiService.AUTH_TOKEN]);
    }
  }
}
