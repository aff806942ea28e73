/**
 * `JwtFilter.doFilterInternal`: reads `Authorization: Bearer <token>`
 * (section 2.1 of RFC 6750), and authenticates the request only when no
 * authentication exists yet. The JWT service and the user-details service
 * are not part of this model: their three calls are parameters that either
 * return or throw.
 */
module JwtFilter {
  import opened Wrappers
  import opened Strings

  const BEARER_PREFIX := "Bearer "

  /** A call into a service this model does not contain: its value, or an exception. */
  datatype Call<T> = Returns(value: T) | Throws

  datatype UserDetails = UserDetails(userName: string)

  /** The authentication the filter installs: the principal the token was validated for. */
  datatype Authentication = Authentication(principal: UserDetails)

  /** The collaborators `JWTService` and `UserService`, as functions. */
  datatype Services = Services(
    extractUserName: string -> Call<Option<string>>,
    loadUserByUsername: string -> Call<UserDetails>,
    validateToken: (string, UserDetails) -> Call<bool>)

  datatype Exit = Continued | Threw

  /** The token of a `Bearer ` header: everything after its first seven characters. */
  function BearerToken(header: Option<string>): (r: Option<string>)
    ensures r.Some? <==> header.Some? && StartsWith(header.value, BEARER_PREFIX)
    ensures r.Some? ==> header.value == BEARER_PREFIX + r.value
  {
    if header.Some? && StartsWith(header.value, BEARER_PREFIX) then
      assert header.value == header.value[..7] + header.value[7..];
      Some(header.value[7..])
    else None
  }

  /** The header the client builds from a stored token yields that token again. */
  lemma BearerRoundTrip(token: string)
    ensures BearerToken(Some(BEARER_PREFIX + token)) == Some(token)
  {
    assert (BEARER_PREFIX + token)[..7] == BEARER_PREFIX;
  }

  /**
   * Whether a service call on the path the filter takes throws: the user
   * name is extracted whenever a bearer token is present; the user is
   * loaded and the token validated only for a non-null name and an empty
   * context.
   */
  predicate ServiceThrew(header: Option<string>, services: Services, authentication: Option<Authentication>) {
    var bearer := BearerToken(header);
    && bearer.Some?
    && var extracted := services.extractUserName(bearer.value);
       || extracted.Throws?
       || (&& extracted.value.Some?
           && authentication.None?
           && var loaded := services.loadUserByUsername(extracted.value.value);
              || loaded.Throws?
              || services.validateToken(bearer.value, loaded.value).Throws?)
  }

  /** `SecurityContextHolder`'s context, and how often the filter chain has been continued. */
  class SecurityContext {
    var authentication: Option<Authentication>
    var chainCalls: nat

    constructor (authentication: Option<Authentication>)
      ensures this.authentication == authentication && chainCalls == 0
    {
      this.authentication := authentication;
      chainCalls := 0;
    }

    /**
     * One pass of the filter. With no bearer header nothing is asked of the
     * services and the chain continues. With an existing authentication
     * it is kept. Otherwise the filter authenticates exactly when the
     * extracted user name is non-null and the token validates for that
     * user. An exception from a service leaves the filter without
     * continuing the chain; every other path continues it once.
     */
    method DoFilterInternal(header: Option<string>, services: Services) returns (exit: Exit)
      modifies this
      ensures BearerToken(header).None? ==> exit == Continued && authentication == old(authentication)
      ensures old(authentication).Some? ==> authentication == old(authentication)
      ensures authentication != old(authentication) ==>
        var token := BearerToken(header).value;
        && BearerToken(header).Some?
        && old(authentication).None?
        && services.extractUserName(token).Returns?
        && services.extractUserName(token).value.Some?
        && var name := services.extractUserName(token).value.value;
           && services.loadUserByUsername(name).Returns?
           && services.validateToken(token, services.loadUserByUsername(name).value) == Returns(true)
           && authentication == Some(Authentication(services.loadUserByUsername(name).value))
      ensures old(authentication).None? && BearerToken(header).Some? ==>
        var token := BearerToken(header).value;
        services.extractUserName(token).Returns? && services.extractUserName(token).value.Some? ==>
          var name := services.extractUserName(token).value.value;
          services.loadUserByUsername(name).Returns? ==>
            var details := services.loadUserByUsername(name).value;
            services.validateToken(token, details) == Returns(true) ==>
              exit == Continued && authentication == Some(Authentication(details))
      ensures exit == Threw <==> ServiceThrew(header, services, old(authentication))
      ensures exit == Continued ==> chainCalls == old(chainCalls) + 1
      ensures exit == Threw ==> chainCalls == old(chainCalls) && authentication == old(authentication)
    {
      var token: Option<string> := None;
      var userName: Option<string> := None;
      var bearer := BearerToken(header);
      if bearer.Some? {
        token := bearer;
        var extracted := services.extractUserName(token.value);
        if extracted.Throws? {
          return Threw;
        }
        userName := extracted.value;
      }
      if userName.Some? && authentication.None? {
        var loaded := services.loadUserByUsername(userName.value);
        if loaded.Throws? {
          return Threw;
        }
        var valid := services.validateToken(token.value, loaded.value);
        if valid.Throws? {
          return Threw;
        }
        if valid.value {
          authentication := Some(Authentication(loaded.value));
        }
      }
      chainCalls := chainCalls + 1;
      exit := Continued;
    }
  }
}
