# OpenID Connect authentication backend of ContainerProxy — a Dafny model

ContainerProxy launches application containers for authenticated users. Its OpenID Connect
backend (`OpenIDAuthenticationBackend`) does four things this project models:

* **Client registration** (`createClientRepo`): the scope set starts as `{"openid", "email"}`
  and then takes `proxy.openid.scopes[0]`, `[1]`, … up to the first index that is not set,
  whatever is configured after that gap; the username attribute defaults to `email`; the
  endpoints and credentials are copied from the property source.
* **Role mapping** (`createAuthoritiesMapper`): without a `proxy.openid.roles-claim` setting
  (or with an empty one) the mapper returns the authorities it is given; otherwise it keeps
  only the roles listed in that claim of each OpenID Connect authority's ID token, each
  upper-cased and prefixed with `ROLE_` unless it already starts with `ROLE_` in any case.
  Plain authorities and tokens without the claim contribute nothing.
* **Container environment** (`customizeContainerEnv`): when a user is signed in and the
  authorized-client store holds a client with an access token for them under the
  registration `shinyproxy`, the entry `SHINYPROXY_OIDC_ACCESS_TOKEN=<token>` is appended to
  the container's environment list; otherwise the list is left alone.
* **Facade**: the name `openid`, the authorization flag `true`, the login redirect URI
  `<context path><authorization base URI>/shinyproxy` and the logout URL (the configured
  `proxy.openid.logout-url` unless it is blank after trimming, the interface default
  otherwise).

Layout: `wrappers.dfy` (Option, map lookup), `text.dfy` (ASCII upper-casing, Java's `trim`,
decimal formatting of the scope index, splitting `NAME=value`, last path segment),
`client_repo.dfy` (module `ClientRepo`), `role_mapping.dfy` (module `RoleMapping`),
`backend.dfy` (module `Backend`, class `OpenIdBackend`).

Modelling choices:
* Spring's `Environment` is a `map<string, string>`; an unset property is `None`.
* The two lambdas `createAuthoritiesMapper` can return are the datatype `Mapper`
  (`Identity`, `RolesFromClaim(name)`), and `ApplyMapper` is the body of the second one,
  with its loops. The authorities a login hands to the mapper are a `set<Authority>`, where an
  `Authority` is `Simple(name)` or `Oidc(claims)`.
* The security context's current authentication is an explicit `Option<Authentication>`
  argument; the `(OidcUser)` cast is a precondition. The environment list is an `EnvList`
  object whose `entries` the method appends to.
* The context path, Spring's authorization base URI and the interface's default logout URL
  are arguments.
* `OpenIDAuthenticationBackend.java` does not check that the authorization URI, token URI,
  client id and client secret are set. The protocol library's registration builder rejects
  missing required settings, so startup fails there. The model follows this file and keeps
  those settings as `Option<string>` without validating them.

## Model

| member | source | states |
|---|---|---|
| `ClientRepo.ScopeAt` | src/main/java/eu/openanalytics/containerproxy/auth/impl/OpenIDAuthenticationBackend.java:131-132 | scope i is present exactly when the property `proxy.openid.scopes[i]` is set, and then it is that property's value |
| `ClientRepo.ScopeKeyInjective` | src/main/java/eu/openanalytics/containerproxy/auth/impl/OpenIDAuthenticationBackend.java:131 | different indices name different properties (the decimal index is read back unambiguously) |
| `ClientRepo.PresentBelowBound` | src/main/java/eu/openanalytics/containerproxy/auth/impl/OpenIDAuthenticationBackend.java:130-134 | a property source with n entries cannot hold more than n consecutive scopes, so the unbounded scan ends |
| `ClientRepo.GapFrom` | src/main/java/eu/openanalytics/containerproxy/auth/impl/OpenIDAuthenticationBackend.java:130-134 | the scan started at a present prefix stops at an index at or after it that is the first missing one |
| `ClientRepo.ScopesTruncateAtFirstGap` | src/main/java/eu/openanalytics/containerproxy/auth/impl/OpenIDAuthenticationBackend.java:126-134 | with scopes 0..k-1 set and scope k unset, the scope set is the two defaults plus exactly those k values |
| `ClientRepo.ScopesIgnoreEntriesAfterGap` | src/main/java/eu/openanalytics/containerproxy/auth/impl/OpenIDAuthenticationBackend.java:130-134 | two property sources agreeing on scopes 0..k, with scope k unset, resolve to the same scope set whatever they hold beyond k |
| `ClientRepo.ConfiguredScopesSize` | src/main/java/eu/openanalytics/containerproxy/auth/impl/OpenIDAuthenticationBackend.java:130-134 | k configured scopes contribute at most k distinct values |
| `ClientRepo.ResolvedScopesSize` | src/main/java/eu/openanalytics/containerproxy/auth/impl/OpenIDAuthenticationBackend.java:126-134 | duplicates collapse: with the first gap at k the scope set has at most k + 2 elements |
| `ClientRepo.CreateScopes` | src/main/java/eu/openanalytics/containerproxy/auth/impl/OpenIDAuthenticationBackend.java:126-134 | the loop yields a set containing `openid` and `email` that equals the resolved scope set |
| `ClientRepo.CreateClientRepo` | src/main/java/eu/openanalytics/containerproxy/auth/impl/OpenIDAuthenticationBackend.java:125-150 | registration `shinyproxy`, authorization-code grant, fixed redirect template, the resolved scopes, username attribute defaulting to `email`, endpoints and credentials as configured; the whole result equals the reference registration `Registration` |
| `RoleMapping.ClaimAsStringList` | src/main/java/eu/openanalytics/containerproxy/auth/impl/OpenIDAuthenticationBackend.java:173 | the claim's role list is present exactly when the ID token carries the claim, and then it is that claim's list |
| `RoleMapping.NormalizeRole` | src/main/java/eu/openanalytics/containerproxy/auth/impl/OpenIDAuthenticationBackend.java:176-177 | a mapped role is upper-case, starts with `ROLE_`, is the upper-cased role with `ROLE_` added at most once, and the prefix is added exactly when the upper-cased role lacks it |
| `RoleMapping.NormalizeRoleAsWritten` | src/main/java/eu/openanalytics/containerproxy/auth/impl/OpenIDAuthenticationBackend.java:176-177 | the normaliser equals the source's form: choose `role` or `"ROLE_" + role` by testing the upper-cased role, then upper-case the choice |
| `RoleMapping.NormalizeRoleFixedPoints` | src/main/java/eu/openanalytics/containerproxy/auth/impl/OpenIDAuthenticationBackend.java:176-177 | a name is left unchanged by the normaliser exactly when it is upper-case and starts with `ROLE_` |
| `RoleMapping.NormalizeRoleIdempotent` | src/main/java/eu/openanalytics/containerproxy/auth/impl/OpenIDAuthenticationBackend.java:176-177 | normalising an already mapped role changes nothing |
| `RoleMapping.NormalizeRoleAddsPrefix` | src/main/java/eu/openanalytics/containerproxy/auth/impl/OpenIDAuthenticationBackend.java:176-177 | `admin` maps to `ROLE_ADMIN` and `Viewer` to `ROLE_VIEWER` |
| `RoleMapping.NormalizeRoleKeepsPrefix` | src/main/java/eu/openanalytics/containerproxy/auth/impl/OpenIDAuthenticationBackend.java:176-177 | prefix detection ignores case: `ROLE_user` maps to `ROLE_USER` and `role_Viewer` to `ROLE_VIEWER` |
| `RoleMapping.CreateAuthoritiesMapper` | src/main/java/eu/openanalytics/containerproxy/auth/impl/OpenIDAuthenticationBackend.java:153-157 | the identity mapper is chosen exactly when `roles-claim` is unset or empty; otherwise the claim reader for the configured name |
| `RoleMapping.RoleAuthoritiesUnion` | src/main/java/eu/openanalytics/containerproxy/auth/impl/OpenIDAuthenticationBackend.java:158-181 | each authority is mapped on its own: mapping a union is the union of the mappings |
| `RoleMapping.RoleAuthoritiesMembers` | src/main/java/eu/openanalytics/containerproxy/auth/impl/OpenIDAuthenticationBackend.java:159-178 | an authority is in the mapped set exactly when it is the normalised form of a role listed in the claim of one of the input OpenID Connect authorities; every member is a plain authority with a normalised name |
| `RoleMapping.UnrelatedAuthoritiesDropped` | src/main/java/eu/openanalytics/containerproxy/auth/impl/OpenIDAuthenticationBackend.java:159-174 | plain authorities and ID tokens lacking the claim contribute nothing to the mapped set |
| `RoleMapping.RoleListImageSize` | src/main/java/eu/openanalytics/containerproxy/auth/impl/OpenIDAuthenticationBackend.java:175-178 | one claim's n roles yield at most n mapped authorities |
| `RoleMapping.RoleAuthoritiesSize` | src/main/java/eu/openanalytics/containerproxy/auth/impl/OpenIDAuthenticationBackend.java:158-181 | the mapped set has no more elements than role strings were read |
| `RoleMapping.MappingExample` | src/main/java/eu/openanalytics/containerproxy/auth/impl/OpenIDAuthenticationBackend.java:157-182 | a token listing `admin`, `ROLE_user`, `Viewer` under `roles` maps to `ROLE_ADMIN`, `ROLE_USER`, `ROLE_VIEWER` |
| `RoleMapping.AddRoles` | src/main/java/eu/openanalytics/containerproxy/auth/impl/OpenIDAuthenticationBackend.java:175-178 | the loop over one claim's roles adds exactly the authorities of those roles to what was collected so far |
| `RoleMapping.ApplyMapper` | src/main/java/eu/openanalytics/containerproxy/auth/impl/OpenIDAuthenticationBackend.java:155-182 | the identity mapper returns its input; the claim reader's loop over the authorities returns exactly the mapped set |
| `Text.TrimEmptyIffBlank` | src/main/java/eu/openanalytics/containerproxy/auth/impl/OpenIDAuthenticationBackend.java:109 | `trim().isEmpty()` holds exactly when every character is at or below U+0020 |
| `Text.SplitEnvEntryRoundTrip` | src/main/java/eu/openanalytics/containerproxy/auth/impl/OpenIDAuthenticationBackend.java:122 | `NAME=value` with an `=`-free name splits back into the name and the whole value, whatever the value holds |
| `Text.DecimalRoundTrip` | src/main/java/eu/openanalytics/containerproxy/auth/impl/OpenIDAuthenticationBackend.java:131 | the `%d` rendering of an index reads back as that index |
| `Text.LastSegmentAfterSlash` | src/main/java/eu/openanalytics/containerproxy/auth/impl/OpenIDAuthenticationBackend.java:100-103 | a slash-free segment appended after `/` is the last path segment |
| `Backend.TokenEnvEntry` | src/main/java/eu/openanalytics/containerproxy/auth/impl/OpenIDAuthenticationBackend.java:115-122 | an entry exists exactly when someone is signed in and a client with an access token is stored for (`shinyproxy`, their name); it contains `=` and splits at its first `=` into `SHINYPROXY_OIDC_ACCESS_TOKEN` and that token, which fixes it as `NAME=token` |
| `Backend.EnvList.Add` | src/main/java/eu/openanalytics/containerproxy/auth/impl/OpenIDAuthenticationBackend.java:122 | appends one entry at the end of the list |
| `Backend.OpenIdBackend.constructor` | src/main/java/eu/openanalytics/containerproxy/auth/impl/OpenIDAuthenticationBackend.java:65-68 | a new backend reads the given property source and has no registration, client service or mapper yet |
| `Backend.OpenIdBackend.GetName` | src/main/java/eu/openanalytics/containerproxy/auth/impl/OpenIDAuthenticationBackend.java:58-73 | the backend is named `openid` |
| `Backend.OpenIdBackend.HasAuthorization` | src/main/java/eu/openanalytics/containerproxy/auth/impl/OpenIDAuthenticationBackend.java:76-78 | the backend always requires authorization |
| `Backend.OpenIdBackend.ConfigureHttpSecurity` | src/main/java/eu/openanalytics/containerproxy/auth/impl/OpenIDAuthenticationBackend.java:81-93 | afterwards the backend holds exactly the registration `createClientRepo` builds (id `shinyproxy`, resolved scopes, every other field as configured), an empty authorized-client store and the mapper chosen from `roles-claim` |
| `Backend.OpenIdBackend.SaveAuthorizedClient` | src/main/java/eu/openanalytics/containerproxy/auth/impl/OpenIDAuthenticationBackend.java:83 | the store maps (registration id, principal name) to the new client, the last write winning, and nothing else changes |
| `Backend.OpenIdBackend.LoadAuthorizedClient` | src/main/java/eu/openanalytics/containerproxy/auth/impl/OpenIDAuthenticationBackend.java:119 | a client is found exactly when one is stored under the key, and it is that one |
| `Backend.OpenIdBackend.GetLoginRedirectURI` | src/main/java/eu/openanalytics/containerproxy/auth/impl/OpenIDAuthenticationBackend.java:100-104 | the URI starts with the context path and base URI, has `shinyproxy` as last segment and nothing else in between but the `/` |
| `Backend.OpenIdBackend.GetLogoutSuccessURL` | src/main/java/eu/openanalytics/containerproxy/auth/impl/OpenIDAuthenticationBackend.java:107-111 | the configured logout URL, untrimmed, when it is set and not blank; the default otherwise |
| `Backend.OpenIdBackend.CustomizeContainerEnv` | src/main/java/eu/openanalytics/containerproxy/auth/impl/OpenIDAuthenticationBackend.java:114-123 | the list is unchanged when nobody is signed in, no client is stored or it has no access token; otherwise exactly the token entry is appended after the unchanged earlier entries |

## Left out

- `configureHttpSecurity`: the Spring Security DSL (request authorization, login page, wiring of the registration, store and mapper into the login flow) is reduced to keeping the three objects in fields.
- `configureAuthenticationManagerBuilder`: it does nothing.
- The client registration builder's validation of required URIs and ids lives in the protocol library and is not modelled; the model keeps those settings unvalidated.
- The OpenID Connect authorization-code exchange, signature checks against the key set and token refresh belong to the protocol library.
- The security context's thread-local lookup is an explicit argument; the `(OidcUser)` cast is a precondition rather than a `ClassCastException`.
- `Backend.OpenIdBackend.CustomizeContainerEnv`: requires the authorized-client store to exist when someone is signed in (and `SaveAuthorizedClient` and `LoadAuthorizedClient` require it always); in the source the store field is set only by `configureHttpSecurity`, which startup runs first, and the `NullPointerException` of an earlier call is not modelled.
- The authorized-client store is a plain sequential map: the concurrency of the in-memory service, and its check that the registration id is known to the registration repository, are not modelled.
- Debug logging of the ID token's claims is left out (it has no effect on the result).
- `SessionHelper.getContextPath`, Spring's authorization base URI constant and the interface's default logout URL are not part of this model; they are arguments.
- `RoleMapping.NormalizeRole`: upper-cases ASCII letters only; Java's locale- and Unicode-dependent `toUpperCase` (which can change a string's length) is not modelled.
- `RoleMapping.ClaimAsStringList`: claims are already lists of strings; the conversion of other claim shapes by the token library is not modelled.
- `RoleMapping.ApplyMapper`: the authorities are a set, so iteration order and the identity mapper's return of the very same collection object are not modelled.
- `ClientRepo.ScopeKey`: the index is rendered with ASCII digits regardless of locale, and the Java `int` loop counter's overflow (reachable only with 2^31 consecutive scope properties) is not modelled.
- Property lookup is exact key lookup; Spring's placeholder resolution and relaxed binding are not modelled.
- `TestProxyService` is an integration test that starts real containers; it is not part of this model.
