/** The API gateway's Keycloak role mapping
    (`SecurityConfig.KeycloakJwtGrantedAuthoritiesConverter.convert`): the
    private claim `realm_access.roles` of a JWT (a private claim name in the
    sense of section 4.3 of RFC 7519) becomes a list of `ROLE_` authorities. */
module SecurityConfig {
  import opened Text

  /** A decoded JSON claim value. */
  datatype Claim =
    | CNull
    | CBool(b: bool)
    | CNumber(n: int)
    | CString(s: string)
    | CList(items: seq<Claim>)
    | CObject(fields: map<string, Claim>)

  /** The claims of a decoded JWT; `jwt.getClaim(name)` is null for a name
      that is not present. */
  type Claims = map<string, Claim>

  /** `ROLES_POR_DEFECTO`: Keycloak's built-in roles, never mapped. */
  const RolesPorDefecto: set<string> := {"OFFLINE_ACCESS", "UMA_AUTHORIZATION"}
  const DefaultRolePrefix: string := "DEFAULT-"
  const AuthorityPrefix: string := "ROLE_"

  // ------------------------------------------------------------ stream stages

  function MapSeq<A, B>(f: A -> B, xs: seq<A>): (r: seq<B>)
    ensures |r| == |xs|
    ensures forall i :: 0 <= i < |xs| ==> r[i] == f(xs[i])
  {
    seq(|xs|, i requires 0 <= i < |xs| => f(xs[i]))
  }

  function Filter<A>(p: A -> bool, xs: seq<A>): (r: seq<A>)
    ensures |r| <= |xs|
    ensures forall i :: 0 <= i < |r| ==> p(r[i])
  {
    if xs == [] then []
    else if p(xs[0]) then [xs[0]] + Filter(p, xs[1..])
    else Filter(p, xs[1..])
  }

  /** `filter(String.class::isInstance).map(String.class::cast)` */
  function Strings(xs: seq<Claim>): (r: seq<string>)
    ensures |r| <= |xs|
  {
    if xs == [] then []
    else if xs[0].CString? then [xs[0].s] + Strings(xs[1..])
    else Strings(xs[1..])
  }

  /** The two exclusion filters, applied after upper-casing. */
  predicate Excluded(role: string)
  {
    role in RolesPorDefecto || DefaultRolePrefix <= role
  }

  /** The list of roles under `realm_access.roles`, if the claim has that shape. */
  function RolesClaim(jwt: Claims): (r: seq<Claim>)
  {
    if "realm_access" !in jwt || !jwt["realm_access"].CObject? then []
    else
      var realmAccess := jwt["realm_access"].fields;
      if "roles" !in realmAccess || !realmAccess["roles"].CList? then []
      else realmAccess["roles"].items
  }

  /** `convert(jwt)`: the stream pipeline, stage by stage. */
  function Convert(jwt: Claims): (authorities: seq<string>)
    ensures !("realm_access" in jwt && jwt["realm_access"].CObject?) ==> authorities == []
    ensures "realm_access" in jwt && jwt["realm_access"].CObject?
            && !("roles" in jwt["realm_access"].fields && jwt["realm_access"].fields["roles"].CList?)
            ==> authorities == []
  {
    var roles := RolesClaim(jwt);
    var trimmed := MapSeq(Trim, Strings(roles));
    var nonEmpty := Filter((r: string) => r != [], trimmed);
    var upper := MapSeq(Upper, nonEmpty);
    var kept := Filter((r: string) => !Excluded(r), upper);
    MapSeq((r: string) => AuthorityPrefix + r, kept)
  }

  // ------------------------------------------------------------ element-wise reference

  /** What one entry of the roles list contributes, on its own. */
  function AuthorityOf(c: Claim): (r: seq<string>)
    ensures |r| <= 1
  {
    if c.CString? then AuthorityOfString(c.s) else []
  }

  /** The concatenation of what `f` gives for each entry, in order. */
  function FlatMap<A, B>(f: A -> seq<B>, xs: seq<A>): seq<B>
  {
    if xs == [] then [] else f(xs[0]) + FlatMap(f, xs[1..])
  }

  /** The authorities of a roles list, entry by entry, in order. */
  function Authorities(roles: seq<Claim>): seq<string>
  {
    FlatMap(AuthorityOf, roles)
  }

  /** The pipeline equals the entry-by-entry reference: each stage of the
      stream commutes with taking the first entry off the list. */
  lemma {:induction false} PipelineIsElementwise(roles: seq<Claim>)
    ensures Pipeline(roles) == Authorities(roles)
  {
    if roles != [] {
      PipelineIsElementwise(roles[1..]);
      var c := roles[0];
      assert Strings(roles) == (if c.CString? then [c.s] else []) + Strings(roles[1..]);
      if c.CString? {
        PipelineAppend([c.s], Strings(roles[1..]));
        PipelineOfOne(c.s);
      } else {
        assert Strings(roles) == Strings(roles[1..]);
      }
    }
  }

  function Pipeline(roles: seq<Claim>): seq<string>
  {
    PipelineOfStrings(Strings(roles))
  }

  function PipelineOfStrings(ss: seq<string>): seq<string>
  {
    var trimmed := MapSeq(Trim, ss);
    var nonEmpty := Filter((r: string) => r != [], trimmed);
    var upper := MapSeq(Upper, nonEmpty);
    var kept := Filter((r: string) => !Excluded(r), upper);
    MapSeq((r: string) => AuthorityPrefix + r, kept)
  }

  lemma {:induction false} FilterAppend<A>(p: A -> bool, xs: seq<A>, ys: seq<A>)
    ensures Filter(p, xs + ys) == Filter(p, xs) + Filter(p, ys)
  {
    if xs != [] {
      FilterAppend(p, xs[1..], ys);
      assert (xs + ys)[1..] == xs[1..] + ys;
    } else {
      assert xs + ys == ys;
    }
  }

  lemma MapSeqAppend<A, B>(f: A -> B, xs: seq<A>, ys: seq<A>)
    ensures MapSeq(f, xs + ys) == MapSeq(f, xs) + MapSeq(f, ys)
  {
  }

  /** The stages after the `String` filter, applied to one string on its own. */
  function AuthorityOfString(s: string): (r: seq<string>)
    ensures |r| <= 1
  {
    var t := Trim(s);
    if t == [] || Excluded(Upper(t)) then [] else [AuthorityPrefix + Upper(t)]
  }

  lemma PipelineOfOne(s: string)
    ensures PipelineOfStrings([s]) == AuthorityOfString(s)
  {
    var t := Trim(s);
    assert MapSeq(Trim, [s]) == [t];
    assert Filter((r: string) => r != [], [t]) == (if t == [] then [] else [t]);
    if t != [] {
      assert MapSeq(Upper, [t]) == [Upper(t)];
    }
  }

  lemma PipelineAppend(xs: seq<string>, ys: seq<string>)
    ensures PipelineOfStrings(xs + ys) == PipelineOfStrings(xs) + PipelineOfStrings(ys)
  {
    var notEmpty := (r: string) => r != [];
    var keep := (r: string) => !Excluded(r);
    var prefix := (r: string) => AuthorityPrefix + r;
    MapSeqAppend(Trim, xs, ys);
    FilterAppend(notEmpty, MapSeq(Trim, xs), MapSeq(Trim, ys));
    var ne1, ne2 := Filter(notEmpty, MapSeq(Trim, xs)), Filter(notEmpty, MapSeq(Trim, ys));
    MapSeqAppend(Upper, ne1, ne2);
    FilterAppend(keep, MapSeq(Upper, ne1), MapSeq(Upper, ne2));
    var k1, k2 := Filter(keep, MapSeq(Upper, ne1)), Filter(keep, MapSeq(Upper, ne2));
    MapSeqAppend(prefix, k1, k2);
  }

  lemma ConvertIsElementwise(jwt: Claims)
    ensures Convert(jwt) == Authorities(RolesClaim(jwt))
  {
    PipelineIsElementwise(RolesClaim(jwt));
  }

  // ------------------------------------------------------------ properties

  lemma {:induction false} FlatMapAppend<A, B>(f: A -> seq<B>, xs: seq<A>, ys: seq<A>)
    ensures FlatMap(f, xs + ys) == FlatMap(f, xs) + FlatMap(f, ys)
  {
    if xs != [] {
      FlatMapAppend(f, xs[1..], ys);
      assert (xs + ys)[1..] == xs[1..] + ys;
    } else {
      assert xs + ys == ys;
    }
  }

  /** The authorities of a concatenation are the concatenation of the
      authorities: order is preserved and duplicates are kept. */
  lemma AuthoritiesAppend(xs: seq<Claim>, ys: seq<Claim>)
    ensures Authorities(xs + ys) == Authorities(xs) + Authorities(ys)
  {
    FlatMapAppend(AuthorityOf, xs, ys);
  }

  /** Never more authorities than roles. */
  lemma {:induction false} AuthoritiesLength(roles: seq<Claim>)
    ensures |Authorities(roles)| <= |roles|
  {
    if roles != [] {
      AuthoritiesLength(roles[1..]);
    }
  }

  /** Every authority is `ROLE_` followed by a non-empty, upper-cased, trimmed
      role name of the list that is neither a default role nor a `DEFAULT-`
      role; so no authority is `ROLE_` alone. */
  lemma {:induction false} AuthorityShape(roles: seq<Claim>, k: nat)
    requires k < |Authorities(roles)|
    ensures exists i :: (0 <= i < |roles| && roles[i].CString? &&
      Authorities(roles)[k] == AuthorityPrefix + Upper(Trim(roles[i].s)))
    ensures var a := Authorities(roles)[k];
      |a| > |AuthorityPrefix| && a[..|AuthorityPrefix|] == AuthorityPrefix
      && !Excluded(a[|AuthorityPrefix|..])
  {
    var rest := Authorities(roles[1..]);
    var own := AuthorityOf(roles[0]);
    assert Authorities(roles) == own + rest;
    if k < |own| {
      var t := Trim(roles[0].s);
      assert (AuthorityPrefix + Upper(t))[|AuthorityPrefix|..] == Upper(t);
      assert roles[0].CString?;
    } else {
      AuthorityShape(roles[1..], k - |own|);
      var i :| 0 <= i < |roles[1..]| && roles[1..][i].CString? &&
        rest[k - |own|] == AuthorityPrefix + Upper(Trim(roles[1..][i].s));
      assert roles[i + 1] == roles[1..][i];
    }
  }

  /** A role whose trimmed, upper-cased form is excluded maps to nothing,
      whatever the case and the blanks it was written with. */
  lemma ExcludedRoleDropped(s: string, canonical: string)
    requires Upper(Trim(s)) == canonical && Excluded(canonical)
    ensures AuthorityOfString(s) == []
  {
  }

  /** A character whose upper case is not trimmable is not trimmable itself. */
  lemma UpperKeepsUntrimmable(c: char)
    requires !IsTrimmable(UpperChar(c))
    ensures !IsTrimmable(c)
  {
  }

  /** A role written without surrounding blanks, whose upper case is an
      excluded name, maps to nothing. */
  lemma SpellingOfExcludedDropped(s: string, canonical: string)
    requires Upper(s) == canonical && Excluded(canonical)
    requires canonical != [] && !IsTrimmable(canonical[0]) && !IsTrimmable(canonical[|canonical| - 1])
    ensures AuthorityOfString(s) == []
  {
    UpperKeepsUntrimmable(s[0]);
    UpperKeepsUntrimmable(s[|s| - 1]);
    TrimOfUnpadded(s);
    ExcludedRoleDropped(s, canonical);
  }

  /** `offline_access` is dropped whatever the case of its letters. */
  lemma OfflineAccessIgnoresCase(s: string)
    requires Upper(s) == "OFFLINE_ACCESS"
    ensures AuthorityOfString(s) == []
  {
    assert Excluded("OFFLINE_ACCESS");
    SpellingOfExcludedDropped(s, "OFFLINE_ACCESS");
  }

  /** `uma_authorization` is dropped whatever the case of its letters. */
  lemma UmaAuthorizationIgnoresCase(s: string)
    requires Upper(s) == "UMA_AUTHORIZATION"
    ensures AuthorityOfString(s) == []
  {
    assert Excluded("UMA_AUTHORIZATION");
    SpellingOfExcludedDropped(s, "UMA_AUTHORIZATION");
  }

  /** Keycloak's `default-roles-<realm>` role, and any other role that starts
      with `default-` in any case, is dropped by its prefix. */
  lemma DefaultRolesDropped(s: string)
    requires |s| >= |DefaultRolePrefix| && Upper(s[..|DefaultRolePrefix|]) == DefaultRolePrefix
    ensures AuthorityOfString(s) == []
  {
    var n := |DefaultRolePrefix|;
    assert UpperChar(s[0]) == Upper(s[..n])[0] == 'D';
    assert UpperChar(s[n - 1]) == Upper(s[..n])[n - 1] == '-';
    UpperKeepsUntrimmable(s[0]);
    UpperKeepsUntrimmable(s[n - 1]);
    var t := Trim(s);
    assert TrimOffset(s) == 0;
    assert |t| >= n;
    assert Upper(t)[..n] == DefaultRolePrefix by {
      forall i | 0 <= i < n
        ensures Upper(t)[i] == DefaultRolePrefix[i]
      {
        assert t[i] == s[i];
        assert Upper(s[..n])[i] == UpperChar(s[i]);
      }
    }
    ExcludedRoleDropped(s, Upper(t));
  }

  lemma AdminMapped()
    ensures AuthorityOfString("admin") == ["ROLE_ADMIN"]
  {
    TrimOfUnpadded("admin");
    UpperCanonical("admin", "ADMIN");
    assert !Excluded("ADMIN") by {
      assert "ADMIN" != "OFFLINE_ACCESS" && "ADMIN" != "UMA_AUTHORIZATION";
    }
    assert AuthorityPrefix + "ADMIN" == "ROLE_ADMIN";
  }

  /** Blanks around a role are trimmed before anything else, so they never
      change what the role maps to. */
  lemma BlanksAroundIgnored(s: string)
    ensures AuthorityOfString([' '] + s + [' ']) == AuthorityOfString(s)
  {
    TrimLeadingBlank(s + [' ']);
    assert [' '] + s + [' '] == [' '] + (s + [' ']);
    TrimTrailingBlank(s);
  }

  lemma TrimOfUnpadded(s: string)
    requires s != [] && !IsTrimmable(s[0]) && !IsTrimmable(s[|s| - 1])
    ensures Trim(s) == s
  {
  }

  lemma UpperCanonical(s: string, u: string)
    requires |s| == |u| && forall i :: 0 <= i < |s| ==> UpperChar(s[i]) == u[i]
    ensures Upper(s) == u
  {
  }

  /** Entries that are not strings, and blank strings, contribute nothing. */
  lemma NonStringsAndBlanksDropped(c: Claim)
    requires !c.CString? || forall i :: 0 <= i < |c.s| ==> IsTrimmable(c.s[i])
    ensures AuthorityOf(c) == []
  {
  }
}
