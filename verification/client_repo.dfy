/**
 * Building the single OpenID Connect client registration from the property source
 * (`createClientRepo`): the scope set, which always holds `openid` and `email` and then
 * every `proxy.openid.scopes[i]` up to the first missing index, and the other settings.
 */
module ClientRepo {
  import opened Wrappers
  import Text

  /** The property source (Spring's `Environment`): property names to values. */
  type Properties = map<string, string>

  const REG_ID := "shinyproxy"
  const OPENID := "openid"
  const EMAIL := "email"
  const REDIRECT_URI_TEMPLATE := "{baseUrl}/login/oauth2/code/{registrationId}"

  datatype GrantType = AuthorizationCode

  /** What the client registration holds; absent settings stay `None` (Java's `null`). */
  datatype ClientRegistration = ClientRegistration(
    registrationId: string,
    authorizationGrantType: GrantType,
    clientName: string,
    redirectUriTemplate: string,
    scopes: set<string>,
    userNameAttributeName: string,
    authorizationUri: Option<string>,
    tokenUri: Option<string>,
    jwkSetUri: Option<string>,
    clientId: Option<string>,
    clientSecret: Option<string>)

  /** The scopes every registration asks for. */
  function DefaultScopes(): set<string>
  {
    {OPENID, EMAIL}
  }

  /** The name of the `i`-th configured scope, `proxy.openid.scopes[i]`. */
  function ScopeKey(i: nat): string
  {
    "proxy.openid.scopes[" + Text.Decimal(i) + "]"
  }

  /** The `i`-th configured scope, if that property is set. */
  function ScopeAt(props: Properties, i: nat): (r: Option<string>)
    ensures r.Some? <==> ScopeKey(i) in props
    ensures r.Some? ==> r.value == props[ScopeKey(i)]
  {
    Get(props, ScopeKey(i))
  }

  /** Distinct indices name distinct properties. */
  lemma ScopeKeyInjective(i: nat, j: nat)
    requires ScopeKey(i) == ScopeKey(j)
    ensures i == j
  {
    var p := "proxy.openid.scopes[";
    var ki, kj := ScopeKey(i), ScopeKey(j);
    assert ki[|p|..|ki| - 1] == Text.Decimal(i);
    assert kj[|p|..|kj| - 1] == Text.Decimal(j);
    Text.DecimalInjective(i, j);
  }

  /** Scopes 0 .. k-1 are all configured. */
  ghost predicate PresentBelow(props: Properties, k: nat)
  {
    forall j :: 0 <= j < k ==> ScopeKey(j) in props
  }

  /** `k` is the first index with no configured scope. */
  ghost predicate FirstGap(props: Properties, k: nat)
  {
    PresentBelow(props, k) && ScopeKey(k) !in props
  }

  /** The property names of scopes 0 .. k-1. */
  ghost function KeysBelow(k: nat): set<string>
  {
    set j | 0 <= j < k :: ScopeKey(j)
  }

  lemma {:induction false} KeysBelowSize(k: nat)
    ensures |KeysBelow(k)| == k
  {
    if k > 0 {
      KeysBelowSize(k - 1);
      KeysBelowStep(k - 1);
    }
  }

  lemma KeysBelowStep(k: nat)
    ensures KeysBelow(k + 1) == KeysBelow(k) + {ScopeKey(k)}
    ensures ScopeKey(k) !in KeysBelow(k)
  {
    if ScopeKey(k) in KeysBelow(k) {
      var j :| 0 <= j < k && ScopeKey(j) == ScopeKey(k);
      ScopeKeyInjective(j, k);
    }
  }

  /** A finite property source cannot hold more consecutive scopes than it has entries,
      so the scan of `createClientRepo` always reaches a gap. */
  lemma PresentBelowBound(props: Properties, k: nat)
    requires PresentBelow(props, k)
    ensures k <= |props|
  {
    KeysBelowSize(k);
    SubsetSize(KeysBelow(k), props.Keys);
  }

  lemma {:induction false} SubsetSize<T>(a: set<T>, b: set<T>)
    requires a <= b
    ensures |a| <= |b|
  {
    if a != {} {
      var x :| x in a;
      SubsetSize(a - {x}, b - {x});
    }
  }

  /** The index at which the scan that starts at `i` stops. */
  ghost function GapFrom(props: Properties, i: nat): (k: nat)
    requires PresentBelow(props, i)
    ensures i <= k && FirstGap(props, k)
    decreases |props| - i
  {
    PresentBelowBound(props, i);
    if ScopeKey(i) !in props then i
    else
      PresentBelowBound(props, i + 1);
      GapFrom(props, i + 1)
  }

  /** The values of scopes 0 .. k-1. */
  ghost function ConfiguredScopes(props: Properties, k: nat): set<string>
    requires PresentBelow(props, k)
  {
    set j | 0 <= j < k :: props[ScopeKey(j)]
  }

  /** The scope set `createClientRepo` hands to the registration. */
  ghost function ResolvedScopes(props: Properties): set<string>
  {
    DefaultScopes() + ConfiguredScopes(props, GapFrom(props, 0))
  }

  /** There is exactly one first gap. */
  lemma FirstGapUnique(props: Properties, k: nat, m: nat)
    requires FirstGap(props, k) && FirstGap(props, m)
    ensures k == m
  {
  }

  /** With scopes 0 .. k-1 present and scope k missing, the resolved set is the two defaults
      together with exactly those k values. */
  lemma ScopesTruncateAtFirstGap(props: Properties, k: nat)
    requires FirstGap(props, k)
    ensures ResolvedScopes(props) == DefaultScopes() + ConfiguredScopes(props, k)
  {
    FirstGapUnique(props, k, GapFrom(props, 0));
  }

  /** Whatever is stored beyond the first gap has no effect: two property sources that agree
      on scopes 0 .. k resolve to the same set when scope k is missing. */
  lemma ScopesIgnoreEntriesAfterGap(p1: Properties, p2: Properties, k: nat)
    requires FirstGap(p1, k)
    requires forall j :: 0 <= j <= k ==> ScopeAt(p1, j) == ScopeAt(p2, j)
    ensures ResolvedScopes(p1) == ResolvedScopes(p2)
  {
    forall j | 0 <= j <= k ensures ScopeKey(j) in p1 <==> ScopeKey(j) in p2 {
      assert ScopeAt(p1, j) == ScopeAt(p2, j);
    }
    assert FirstGap(p2, k);
    ScopesTruncateAtFirstGap(p1, k);
    ScopesTruncateAtFirstGap(p2, k);
    assert ConfiguredScopes(p1, k) == ConfiguredScopes(p2, k) by {
      forall j | 0 <= j < k ensures p1[ScopeKey(j)] == p2[ScopeKey(j)] {
        assert ScopeAt(p1, j) == ScopeAt(p2, j);
      }
    }
  }

  /** Duplicates collapse: k configured scopes add at most k entries to the two defaults. */
  lemma {:induction false} ConfiguredScopesSize(props: Properties, k: nat)
    requires PresentBelow(props, k)
    ensures |ConfiguredScopes(props, k)| <= k
  {
    if k > 0 {
      ConfiguredScopesSize(props, k - 1);
      assert ConfiguredScopes(props, k) == ConfiguredScopes(props, k - 1) + {props[ScopeKey(k - 1)]};
    }
  }

  lemma ResolvedScopesSize(props: Properties, k: nat)
    requires FirstGap(props, k)
    ensures |ResolvedScopes(props)| <= 2 + k
  {
    ScopesTruncateAtFirstGap(props, k);
    ConfiguredScopesSize(props, k);
  }

  /** The scope loop of `createClientRepo`: start from the defaults and add `scopes[i]` for
      i = 0, 1, … until the first index that is not set. */
  method CreateScopes(props: Properties) returns (scopes: set<string>)
    ensures OPENID in scopes && EMAIL in scopes
    ensures scopes == ResolvedScopes(props)
  {
    scopes := {};
    scopes := scopes + {OPENID};
    scopes := scopes + {EMAIL};
    var i: nat := 0;
    while true
      invariant PresentBelow(props, i) && i <= |props|
      invariant GapFrom(props, i) == GapFrom(props, 0)
      invariant scopes == DefaultScopes() + ConfiguredScopes(props, i)
      decreases |props| - i
    {
      var scope := ScopeAt(props, i);
      if scope.None? {
        break;
      }
      assert ConfiguredScopes(props, i + 1) == ConfiguredScopes(props, i) + {scope.value};
      scopes := scopes + {scope.value};
      i := i + 1;
      PresentBelowBound(props, i);
    }
  }

  /** The registration `createClientRepo` builds from a property source. */
  ghost function Registration(props: Properties): ClientRegistration
  {
    ClientRegistration(
      REG_ID,
      AuthorizationCode,
      REG_ID,
      REDIRECT_URI_TEMPLATE,
      ResolvedScopes(props),
      Get(props, "proxy.openid.username-attribute").GetOr(EMAIL),
      Get(props, "proxy.openid.auth-url"),
      Get(props, "proxy.openid.token-url"),
      Get(props, "proxy.openid.jwks-url"),
      Get(props, "proxy.openid.client-id"),
      Get(props, "proxy.openid.client-secret"))
  }

  /** `createClientRepo`: the registration `shinyproxy` with the resolved scopes, the
      configured username attribute (default `email`) and the configured endpoints and
      credentials, each as set in the property source. */
  method CreateClientRepo(props: Properties) returns (client: ClientRegistration)
    ensures client.registrationId == REG_ID && client.clientName == REG_ID
    ensures client.authorizationGrantType == AuthorizationCode
    ensures client.redirectUriTemplate == REDIRECT_URI_TEMPLATE
    ensures client.scopes == ResolvedScopes(props)
    ensures client.userNameAttributeName == Get(props, "proxy.openid.username-attribute").GetOr(EMAIL)
    ensures client.authorizationUri == Get(props, "proxy.openid.auth-url")
    ensures client.tokenUri == Get(props, "proxy.openid.token-url")
    ensures client.jwkSetUri == Get(props, "proxy.openid.jwks-url")
    ensures client.clientId == Get(props, "proxy.openid.client-id")
    ensures client.clientSecret == Get(props, "proxy.openid.client-secret")
    ensures client == Registration(props)
  {
    var scopes := CreateScopes(props);
    client := ClientRegistration(
      REG_ID,
      AuthorizationCode,
      REG_ID,
      REDIRECT_URI_TEMPLATE,
      scopes,
      Get(props, "proxy.openid.username-attribute").GetOr(EMAIL),
      Get(props, "proxy.openid.auth-url"),
      Get(props, "proxy.openid.token-url"),
      Get(props, "proxy.openid.jwks-url"),
      Get(props, "proxy.openid.client-id"),
      Get(props, "proxy.openid.client-secret"));
  }
}
