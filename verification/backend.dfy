/**
 * The OpenID Connect authentication backend: its fixed name and authorization flag, the
 * login redirect and logout URLs, the configuration step that builds the client
 * registration, the authorized-client store and the authorities mapper, and the hook that
 * hands the signed-in user's access token to a container about to be launched.
 */
module Backend {
  import opened Wrappers
  import Text
  import ClientRepo
  import RoleMapping

  const NAME := "openid"
  const ENV_TOKEN_NAME := "SHINYPROXY_OIDC_ACCESS_TOKEN"
  const LOGOUT_URL_PROPERTY := "proxy.openid.logout-url"

  /** The principal of an authentication; only an OpenID Connect user is expected here. */
  datatype Principal = OidcUser(name: string) | OtherPrincipal(name: string)

  datatype Authentication = Authentication(principal: Principal)

  datatype AccessToken = AccessToken(tokenValue: string)

  /** What the protocol layer stores after a login; the access token may be missing. */
  datatype AuthorizedClient = AuthorizedClient(accessToken: Option<AccessToken>)

  /** Authorized clients are stored under (registration id, principal name). */
  type ClientKey = (string, string)

  type ClientStore = map<ClientKey, AuthorizedClient>

  /** The environment entry handed to the container for the current authentication, if any:
      there is one exactly when someone is signed in and the store holds a client with an
      access token for them under `shinyproxy`, and it defines the variable
      `SHINYPROXY_OIDC_ACCESS_TOKEN` with that token as its value. */
  function TokenEnvEntry(store: ClientStore, auth: Option<Authentication>): (r: Option<string>)
    ensures r.Some? <==>
      auth.Some? && (ClientRepo.REG_ID, auth.value.principal.name) in store
      && store[(ClientRepo.REG_ID, auth.value.principal.name)].accessToken.Some?
    ensures r.Some? ==>
      var token := store[(ClientRepo.REG_ID, auth.value.principal.name)].accessToken.value.tokenValue;
      Text.SplitEnvEntry(r.value) == (ENV_TOKEN_NAME, token)
    ensures r.Some? ==> '=' in r.value
  {
    if auth.None? then None
    else
      var client := Get(store, (ClientRepo.REG_ID, auth.value.principal.name));
      if client.None? || client.value.accessToken.None? then None
      else
        var token := client.value.accessToken.value.tokenValue;
        Text.SplitEnvEntryRoundTrip(ENV_TOKEN_NAME, token);
        assert (ENV_TOKEN_NAME + "=" + token)[|ENV_TOKEN_NAME|] == '=';
        Some(ENV_TOKEN_NAME + "=" + token)
  }

  /** The environment list of a container being prepared; the backend appends to it. */
  class EnvList {
    var entries: seq<string>

    constructor (entries: seq<string>)
      ensures this.entries == entries
    {
      this.entries := entries;
    }

    method Add(e: string)
      modifies this
      ensures entries == old(entries) + [e]
    {
      entries := entries + [e];
    }
  }

  class OpenIdBackend {
    /** The property source the backend reads its settings from. */
    const environment: map<string, string>
    /** The registration handed to the protocol layer, once configured. */
    var clientRegistration: Option<ClientRepo.ClientRegistration>
    /** The authorized-client service, `None` until configured. */
    var authorizedClientService: Option<ClientStore>
    /** The mapper the login flow applies to a user's authorities, once configured. */
    var authoritiesMapper: Option<RoleMapping.Mapper>

    constructor (environment: map<string, string>)
      ensures this.environment == environment
      ensures clientRegistration.None? && authorizedClientService.None? && authoritiesMapper.None?
    {
      this.environment := environment;
      clientRegistration := None;
      authorizedClientService := None;
      authoritiesMapper := None;
    }

    function GetName(): (r: string)
      ensures r == "openid"
    {
      NAME
    }

    function HasAuthorization(): (r: bool)
      ensures r
    {
      true
    }

    /** Builds the client registration, a fresh empty authorized-client store over it and the
        authorities mapper, and keeps them for the login flow. */
    method ConfigureHttpSecurity()
      modifies this
      ensures clientRegistration == Some(ClientRepo.Registration(environment))
      ensures clientRegistration.value.registrationId == ClientRepo.REG_ID
      ensures clientRegistration.value.scopes == ClientRepo.ResolvedScopes(environment)
      ensures authorizedClientService == Some(map[])
      ensures authoritiesMapper == Some(RoleMapping.CreateAuthoritiesMapper(environment))
    {
      var client := ClientRepo.CreateClientRepo(environment);
      clientRegistration := Some(client);
      authorizedClientService := Some(map[]);
      authoritiesMapper := Some(RoleMapping.CreateAuthoritiesMapper(environment));
    }

    /** What the protocol layer does after a login: store the client under the registration
        id and the principal's name, replacing any earlier one. */
    method SaveAuthorizedClient(registrationId: string, principalName: string, client: AuthorizedClient)
      requires authorizedClientService.Some?
      modifies this
      ensures authorizedClientService
           == Some(old(authorizedClientService.value)[(registrationId, principalName) := client])
      ensures clientRegistration == old(clientRegistration) && authoritiesMapper == old(authoritiesMapper)
    {
      authorizedClientService := Some(authorizedClientService.value[(registrationId, principalName) := client]);
    }

    /** The client stored under the registration id and principal name, if any. */
    function LoadAuthorizedClient(registrationId: string, principalName: string): (r: Option<AuthorizedClient>)
      reads this
      requires authorizedClientService.Some?
      ensures r.Some? <==> (registrationId, principalName) in authorizedClientService.value
      ensures r.Some? ==> r.value == authorizedClientService.value[(registrationId, principalName)]
    {
      Get(authorizedClientService.value, (registrationId, principalName))
    }

    /** The URI that starts a login with this registration: the context path, the protocol
        layer's authorization base URI, then `/shinyproxy`. */
    function GetLoginRedirectURI(contextPath: string, authorizationRequestBaseUri: string): (r: string)
      ensures Text.HasPrefix(r, contextPath + authorizationRequestBaseUri)
      ensures Text.LastSegment(r) == ClientRepo.REG_ID
      ensures |r| == |contextPath| + |authorizationRequestBaseUri| + 1 + |ClientRepo.REG_ID|
    {
      var base := contextPath + authorizationRequestBaseUri;
      assert '/' !in ClientRepo.REG_ID;
      Text.LastSegmentAfterSlash(base, ClientRepo.REG_ID);
      assert (base + "/" + ClientRepo.REG_ID)[..|base|] == base;
      base + "/" + ClientRepo.REG_ID
    }

    /** The configured `logout-url` when it holds anything but blanks, the interface's
        default otherwise; the configured value is returned untrimmed. */
    function GetLogoutSuccessURL(defaultLogoutUrl: string): (r: string)
      ensures LOGOUT_URL_PROPERTY in environment && !Text.IsBlank(environment[LOGOUT_URL_PROPERTY])
              ==> r == environment[LOGOUT_URL_PROPERTY]
      ensures LOGOUT_URL_PROPERTY !in environment || Text.IsBlank(environment[LOGOUT_URL_PROPERTY])
              ==> r == defaultLogoutUrl
    {
      var logoutUrl := Get(environment, LOGOUT_URL_PROPERTY);
      if logoutUrl.None? then defaultLogoutUrl
      else
        Text.TrimEmptyIffBlank(logoutUrl.value);
        if Text.Trim(logoutUrl.value) == [] then defaultLogoutUrl else logoutUrl.value
    }

    /** Appends the signed-in user's access token to the container environment, and leaves
        the environment as it is when nobody is signed in, no client is stored for them or
        the stored client has no access token. */
    method CustomizeContainerEnv(auth: Option<Authentication>, env: EnvList)
      requires auth.Some? ==> auth.value.principal.OidcUser? && authorizedClientService.Some?
      modifies env
      ensures env.entries == old(env.entries) +
        match TokenEnvEntry(authorizedClientService.GetOr(map[]), auth)
        case Some(e) => [e]
        case None => []
    {
      if auth.None? {
        return;
      }
      var user := auth.value.principal;
      var client := LoadAuthorizedClient(ClientRepo.REG_ID, user.name);
      if client.None? || client.value.accessToken.None? {
        return;
      }
      env.Add(ENV_TOKEN_NAME + "=" + client.value.accessToken.value.tokenValue);
    }
  }
}
