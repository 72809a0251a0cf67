/**
 * The authorities mapper of `createAuthoritiesMapper`. Without a `roles-claim` setting it
 * hands the authorities back as they are; with one it replaces them by the roles listed in
 * that claim of each OpenID Connect authority's ID token, each normalised to an upper-case
 * name starting with `ROLE_`.
 */
module RoleMapping {
  import opened Wrappers
  import Text

  const ROLE_PREFIX := "ROLE_"
  const ROLES_CLAIM_PROPERTY := "proxy.openid.roles-claim"

  /** A granted authority: a plain named one, or one carrying the claims of an ID token. */
  datatype Authority =
    | Simple(name: string)
    | Oidc(claims: map<string, seq<string>>)

  /** The two mappers `createAuthoritiesMapper` can return. */
  datatype Mapper = Identity | RolesFromClaim(claimName: string)

  /** `getClaimAsStringList`: the claim's list of strings, `None` when the claim is absent. */
  function ClaimAsStringList(claims: map<string, seq<string>>, name: string): (r: Option<seq<string>>)
    ensures r.Some? <==> name in claims
    ensures r.Some? ==> r.value == claims[name]
  {
    Get(claims, name)
  }

  /** An upper-case string that starts with `ROLE_`. */
  predicate IsNormalizedRole(r: string)
  {
    Text.HasPrefix(r, ROLE_PREFIX) && Text.IsUpper(r)
  }

  /** The name a role from the claim is granted under: `ROLE_` is added unless the role
      already starts with it in any case, and the whole name is upper-cased. */
  function NormalizeRole(role: string): (r: string)
    ensures IsNormalizedRole(r)
    ensures r == Text.Upper(role) || r == ROLE_PREFIX + Text.Upper(role)
    ensures Text.HasPrefix(Text.Upper(role), ROLE_PREFIX) <==> |r| == |role|
  {
    var up := Text.Upper(role);
    Text.UpperIsUpper(role);
    if Text.HasPrefix(up, ROLE_PREFIX) then up else ROLE_PREFIX + up
  }

  /** The normaliser agrees with the way the mapper writes it: pick `role` or `ROLE_` + `role`
      by testing the upper-cased role for the prefix, then upper-case the choice. */
  lemma NormalizeRoleAsWritten(role: string)
    ensures NormalizeRole(role)
         == Text.Upper(if Text.HasPrefix(Text.Upper(role), ROLE_PREFIX) then role else ROLE_PREFIX + role)
  {
    Text.UpperConcat(ROLE_PREFIX, role);
    Text.UpperOfUpper(ROLE_PREFIX);
  }

  /** The normalised names are exactly the fixed points of the normaliser. */
  lemma NormalizeRoleFixedPoints(r: string)
    ensures NormalizeRole(r) == r <==> IsNormalizedRole(r)
  {
    if IsNormalizedRole(r) {
      Text.UpperOfUpper(r);
    }
  }

  /** Normalising twice is normalising once. */
  lemma NormalizeRoleIdempotent(role: string)
    ensures NormalizeRole(NormalizeRole(role)) == NormalizeRole(role)
  {
    NormalizeRoleFixedPoints(NormalizeRole(role));
  }

  /** A role without the prefix gets it, and the result is upper-case. */
  lemma NormalizeRoleAddsPrefix()
    ensures NormalizeRole("admin") == "ROLE_ADMIN"
    ensures NormalizeRole("Viewer") == "ROLE_VIEWER"
  {
    PrefixAddedWhenAbsent("admin", "ADMIN");
    PrefixAddedWhenAbsent("Viewer", "VIEWER");
  }

  /** A role whose upper-cased form does not start with `R` gets the prefix. */
  lemma PrefixAddedWhenAbsent(role: string, up: string)
    requires Text.Upper(role) == up && up != [] && up[0] != 'R'
    ensures NormalizeRole(role) == ROLE_PREFIX + up
  {
    if |up| >= 5 {
      assert up[..5][0] == up[0];
    }
  }

  /** Prefix detection ignores case: a role that starts with `ROLE_` in any case is only
      upper-cased. */
  lemma NormalizeRoleKeepsPrefix()
    ensures NormalizeRole("ROLE_user") == "ROLE_USER"
    ensures NormalizeRole("role_Viewer") == "ROLE_VIEWER"
  {
    assert Text.Upper("ROLE_user") == "ROLE_USER";
    assert Text.HasPrefix("ROLE_USER", ROLE_PREFIX);
    assert Text.Upper("role_Viewer") == "ROLE_VIEWER";
    assert Text.HasPrefix("ROLE_VIEWER", ROLE_PREFIX);
  }

  /** The roles an authority lists under `claimName`; `None` for a plain authority and for
      an ID token without that claim. */
  function RolesOf(a: Authority, claimName: string): Option<seq<string>>
  {
    match a
    case Simple(_) => None
    case Oidc(claims) => ClaimAsStringList(claims, claimName)
  }

  /** The authority a role from the claim is granted as. */
  function RoleAuthority(role: string): Authority
  {
    Simple(NormalizeRole(role))
  }

  /** The authorities a list of roles is granted as. */
  function RoleImage(roles: seq<string>): set<Authority>
  {
    set role | role in roles :: RoleAuthority(role)
  }

  lemma RoleImageStep(roles: seq<string>, j: nat)
    requires j < |roles|
    ensures RoleImage(roles[..j + 1]) == RoleImage(roles[..j]) + {RoleAuthority(roles[j])}
  {
    assert roles[..j + 1] == roles[..j] + [roles[j]];
  }

  /** What one authority contributes to the mapped set. */
  function Contribution(a: Authority, claimName: string): set<Authority>
  {
    RoleImage(RolesOf(a, claimName).GetOr([]))
  }

  /** The authorities the claim-reading mapper returns for `authorities`. */
  function RoleAuthorities(authorities: set<Authority>, claimName: string): set<Authority>
  {
    set a, x | a in authorities && x in Contribution(a, claimName) :: x
  }

  /** The mapper chosen from the property source: the identity when `roles-claim` is unset
      or empty, the claim reader otherwise. */
  function CreateAuthoritiesMapper(props: map<string, string>): (m: Mapper)
    ensures m == Identity <==> ROLES_CLAIM_PROPERTY !in props || props[ROLES_CLAIM_PROPERTY] == ""
    ensures m.RolesFromClaim? ==> m.claimName == props[ROLES_CLAIM_PROPERTY]
  {
    var rolesClaimName := Get(props, ROLES_CLAIM_PROPERTY);
    if rolesClaimName.None? || rolesClaimName.value == "" then Identity
    else RolesFromClaim(rolesClaimName.value)
  }

  /** What applying `mapper` to `authorities` yields. */
  function Mapped(mapper: Mapper, authorities: set<Authority>): set<Authority>
  {
    match mapper
    case Identity => authorities
    case RolesFromClaim(claimName) => RoleAuthorities(authorities, claimName)
  }

  /** Mapping distributes over a union of authority sets. */
  lemma RoleAuthoritiesUnion(a1: set<Authority>, a2: set<Authority>, claimName: string)
    ensures RoleAuthorities(a1 + a2, claimName)
         == RoleAuthorities(a1, claimName) + RoleAuthorities(a2, claimName)
  {
  }

  lemma RoleAuthoritiesSingleton(a: Authority, claimName: string)
    ensures RoleAuthorities({a}, claimName) == Contribution(a, claimName)
  {
  }

  /** Adding one authority adds its contribution, and nothing when it lists no roles. */
  lemma RoleAuthoritiesAdd(done: set<Authority>, a: Authority, claimName: string)
    ensures RoleAuthorities(done + {a}, claimName) == RoleAuthorities(done, claimName) + Contribution(a, claimName)
    ensures RolesOf(a, claimName).None? ==> RoleAuthorities(done + {a}, claimName) == RoleAuthorities(done, claimName)
  {
    RoleAuthoritiesUnion(done, {a}, claimName);
    RoleAuthoritiesSingleton(a, claimName);
    if RolesOf(a, claimName).None? {
      assert Contribution(a, claimName) == RoleImage([]);
    }
  }

  /** Every authority the claim reader returns is a plain authority with a normalised name,
      and it comes from a role listed in the claim of one of the input authorities. */
  lemma RoleAuthoritiesMembers(authorities: set<Authority>, claimName: string, x: Authority)
    ensures x in RoleAuthorities(authorities, claimName) <==>
      exists a, role :: a in authorities && a.Oidc? && claimName in a.claims
                        && role in a.claims[claimName] && x == Simple(NormalizeRole(role))
    ensures x in RoleAuthorities(authorities, claimName) ==> x.Simple? && IsNormalizedRole(x.name)
  {
    if exists a, role :: a in authorities && a.Oidc? && claimName in a.claims
                         && role in a.claims[claimName] && x == Simple(NormalizeRole(role)) {
      var a, role :| a in authorities && a.Oidc? && claimName in a.claims
                     && role in a.claims[claimName] && x == Simple(NormalizeRole(role));
      assert x == RoleAuthority(role) && role in RolesOf(a, claimName).GetOr([]);
      assert x in Contribution(a, claimName);
    }
    if x in RoleAuthorities(authorities, claimName) {
      var a :| a in authorities && x in Contribution(a, claimName);
      var role :| role in RolesOf(a, claimName).GetOr([]) && x == Simple(NormalizeRole(role));
      assert a.Oidc? && claimName in a.claims && role in a.claims[claimName];
    }
  }

  /** Plain authorities, and OpenID Connect authorities whose ID token lacks the claim,
      contribute nothing once the claim reader is active. */
  lemma UnrelatedAuthoritiesDropped(authorities: set<Authority>, a: Authority, claimName: string)
    requires a.Simple? || claimName !in a.claims
    ensures RoleAuthorities(authorities + {a}, claimName) == RoleAuthorities(authorities, claimName)
    ensures RoleAuthorities({a}, claimName) == {}
  {
    RoleAuthoritiesUnion(authorities, {a}, claimName);
    RoleAuthoritiesSingleton(a, claimName);
  }

  /** A role list of length n yields at most n mapped authorities. */
  lemma {:induction false} RoleListImageSize(roles: seq<string>)
    ensures |RoleImage(roles)| <= |roles|
  {
    if roles != [] {
      var n := |roles| - 1;
      RoleListImageSize(roles[..n]);
      RoleImageStep(roles, n);
      assert roles[..n + 1] == roles;
    }
  }

  /** One element of a non-empty set, always the same one for the same set. */
  ghost function Pick<T>(s: set<T>): (x: T)
    requires s != {}
    ensures x in s
  {
    var x :| x in s; x
  }

  /** The number of role strings the claim reader reads from `authorities`. */
  ghost function RolesRead(authorities: set<Authority>, claimName: string): nat
    decreases |authorities|
  {
    if authorities == {} then 0
    else
      var a := Pick(authorities);
      |RolesOf(a, claimName).GetOr([])| + RolesRead(authorities - {a}, claimName)
  }

  /** The mapped set never has more elements than roles were read. */
  lemma {:induction false} RoleAuthoritiesSize(authorities: set<Authority>, claimName: string)
    ensures |RoleAuthorities(authorities, claimName)| <= RolesRead(authorities, claimName)
    decreases |authorities|
  {
    if authorities != {} {
      var a := Pick(authorities);
      var rest := authorities - {a};
      RoleAuthoritiesSize(rest, claimName);
      assert authorities == rest + {a};
      RoleAuthoritiesUnion(rest, {a}, claimName);
      RoleAuthoritiesSingleton(a, claimName);
      RoleListImageSize(RolesOf(a, claimName).GetOr([]));
    }
  }

  /** The example of a token listing `admin`, `ROLE_user` and `Viewer` under `roles`. */
  lemma MappingExample()
    ensures RoleAuthorities({Oidc(map["roles" := ["admin", "ROLE_user", "Viewer"]])}, "roles")
         == {Simple("ROLE_ADMIN"), Simple("ROLE_USER"), Simple("ROLE_VIEWER")}
  {
    var roles := ["admin", "ROLE_user", "Viewer"];
    var a := Oidc(map["roles" := roles]);
    NormalizeRoleAddsPrefix();
    NormalizeRoleKeepsPrefix();
    RoleAuthoritiesSingleton(a, "roles");
    assert RolesOf(a, "roles") == Some(roles);
    RoleListOfThree("admin", "ROLE_user", "Viewer");
  }

  lemma RoleListOfThree(x: string, y: string, z: string)
    ensures RoleImage([x, y, z]) == {RoleAuthority(x), RoleAuthority(y), RoleAuthority(z)}
  {
    assert forall role :: role in [x, y, z] <==> role == x || role == y || role == z;
  }

  /** The inner loop of the claim reader: adds the authority of every role in `roles`. */
  method AddRoles(mapped: set<Authority>, roles: seq<string>) returns (result: set<Authority>)
    ensures result == mapped + RoleImage(roles)
  {
    result := mapped;
    for j := 0 to |roles|
      invariant result == mapped + RoleImage(roles[..j])
    {
      RoleImageStep(roles, j);
      result := result + {RoleAuthority(roles[j])};
    }
    assert roles[..|roles|] == roles;
  }

  /** The mapper applied to the authorities of a login: the identity returns them as they
      are; the claim reader walks every authority and every role in its claim and collects
      the normalised names. */
  method ApplyMapper(mapper: Mapper, authorities: set<Authority>) returns (mapped: set<Authority>)
    ensures mapper == Identity ==> mapped == authorities
    ensures mapped == Mapped(mapper, authorities)
  {
    if mapper.Identity? {
      return authorities;
    }
    var claimName := mapper.claimName;
    mapped := {};
    var rest := authorities;
    while rest != {}
      invariant rest <= authorities
      invariant mapped == RoleAuthorities(authorities - rest, claimName)
      decreases |rest|
    {
      var auth :| auth in rest;
      ghost var done := authorities - rest;
      RoleAuthoritiesAdd(done, auth, claimName);
      if auth.Oidc? {
        var roles := ClaimAsStringList(auth.claims, claimName);
        if roles.Some? {
          mapped := AddRoles(mapped, roles.value);
        }
      }
      rest := rest - {auth};
      assert authorities - rest == done + {auth};
    }
  }
}
