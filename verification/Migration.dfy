/** Migration of legacy profiles to configuration version 2 and back
    (src/config/migration.rs), and resolution of the default integration
    (src/config/resolver.rs).  Each profile becomes an integration, an upstream
    and a policy whose identifiers derive from the normalised name, so profiles
    whose names normalise alike share identifiers.  Going there and back never
    fails and settles after one round, collisions included. */
module Migration {
  import opened Wrappers
  import opened Breakpoints

  // ---- Names and identifiers ----

  /** Trimming, lowering and hashing of names. */
  datatype Names = Names(trim: string -> string, lower: string -> string, hash: (string, string) -> string) {

    function Normal(name: string): string {
      lower(trim(name))
    }

    function Id(kind: string, name: string): string {
      hash(kind, Normal(name))
    }

    predicate LawfulAt(s: string) {
      trim(trim(s)) == trim(s) && trim(lower(s)) == lower(trim(s))
    }

    /** Trimming twice is trimming once, and lowering neither makes nor removes
        white space. */
    ghost predicate Lawful() {
      forall s :: LawfulAt(s)
    }
  }

  /** The position of the first element with a property, or the length. */
  function Find<T>(s: seq<T>, p: T -> bool): (i: nat)
    ensures i <= |s|
    ensures i < |s| ==> p(s[i])
    ensures forall j :: 0 <= j < i ==> !p(s[j])
  {
    if s == [] || p(s[0]) then 0
    else
      assert forall j :: 0 < j < |s| ==> s[j] == s[1..][j - 1];
      1 + Find(s[1..], p)
  }

  function AsciiLower(s: string): string {
    seq(|s|, i requires 0 <= i < |s| =>
      if 'A' <= s[i] <= 'Z' then (s[i] as int - 'A' as int + 'a' as int) as char else s[i])
  }

  /** The same letter, but for the case of an ASCII letter. */
  predicate SameLetter(a: char, b: char) {
    a == b || ('A' <= a <= 'Z' && b as int == a as int + 32) || ('A' <= b <= 'Z' && a as int == b as int + 32)
  }

  predicate EqualIgnoringCase(a: string, b: string) {
    |a| == |b| && forall i :: 0 <= i < |a| ==> SameLetter(a[i], b[i])
  }

  lemma AsciiLowerForgetsCase(a: string, b: string)
    ensures AsciiLower(a) == AsciiLower(b) <==> EqualIgnoringCase(a, b)
  {
    var x, y := AsciiLower(a), AsciiLower(b);
    if |a| == |b| {
      forall i | 0 <= i < |a|
        ensures x[i] == y[i] <==> SameLetter(a[i], b[i])
      {
      }
    }
  }

  // ---- Legacy profiles ----

  datatype CacheMode = Observe | Auto

  datatype CachePolicy = CachePolicy(enabled: bool, mode: CacheMode, breakpoint: CacheBreakpoint)

  datatype AuthMethod = ApiKey(headerName: string, key: string) | BearerToken(token: string) | NoAuth

  /** A feature's settings, carried over as they are. */
  type Settings = string

  datatype Features = Features(reduce: Option<Settings>, efficiency: Option<Settings>, safeCache: Option<Settings>)

  datatype Profile = Profile(
    name: string, url: string, auth: AuthMethod, headers: map<string, string>, models: map<string, string>,
    cache: Option<CachePolicy>, features: Features, graphify: Option<Settings>)

  datatype Profiles = Profiles(defaultName: Option<string>, profiles: seq<Profile>)

  // ---- Configuration version 2 ----

  datatype SecretRef = Environment(key: string) | Command(program: string) | LegacyInline(value: string) | NoSecret

  datatype Upstream = Upstream(
    id: string, name: string, url: string, secret: SecretRef, headerName: string, headers: map<string, string>)

  datatype Policy = Policy(id: string, name: string, cache: Option<CachePolicy>, features: Features)

  datatype Integration = Integration(
    id: string, name: string, upstream: string, policy: Option<string>, graphify: Option<Settings>,
    models: map<string, string>)

  datatype Config = Config(
    defaultIntegration: Option<string>, integrations: seq<Integration>, upstreams: seq<Upstream>, policies: seq<Policy>)

  /** Position `i` has the identifier, and no position before it does. */
  predicate FirstWith(ids: seq<string>, id: string, i: int) {
    0 <= i < |ids| && ids[i] == id && id !in ids[..i]
  }

  function IntegrationIds(c: Config): (ids: seq<string>)
    ensures |ids| == |c.integrations| && forall i :: 0 <= i < |ids| ==> ids[i] == c.integrations[i].id
  {
    seq(|c.integrations|, i requires 0 <= i < |c.integrations| => c.integrations[i].id)
  }

  function UpstreamIds(c: Config): (ids: seq<string>)
    ensures |ids| == |c.upstreams| && forall i :: 0 <= i < |ids| ==> ids[i] == c.upstreams[i].id
  {
    seq(|c.upstreams|, i requires 0 <= i < |c.upstreams| => c.upstreams[i].id)
  }

  function PolicyIds(c: Config): (ids: seq<string>)
    ensures |ids| == |c.policies| && forall i :: 0 <= i < |ids| ==> ids[i] == c.policies[i].id
  {
    seq(|c.policies|, i requires 0 <= i < |c.policies| => c.policies[i].id)
  }

  // ---- Migration ----

  function MigrateAuth(a: AuthMethod): (SecretRef, string) {
    match a
    case ApiKey(h, k) => (LegacyInline(k), h)
    case BearerToken(t) => (LegacyInline(t), "authorization")
    case NoAuth => (NoSecret, "x-api-key")
  }

  function UpstreamOf(n: Names, p: Profile): Upstream {
    Upstream(n.Id("upstream", p.name), p.name, p.url, MigrateAuth(p.auth).0, MigrateAuth(p.auth).1, p.headers)
  }

  function PolicyOf(n: Names, p: Profile): Policy {
    Policy(n.Id("policy", p.name), p.name, p.cache, p.features)
  }

  function IntegrationOf(n: Names, p: Profile): Integration {
    Integration(n.Id("integration", p.name), p.name, n.Id("upstream", p.name), Some(n.Id("policy", p.name)),
                p.graphify, p.models)
  }

  /** The integration named by the legacy default, if any has that name. */
  function DefaultId(n: Names, defaultName: Option<string>, integrations: seq<Integration>): Option<string> {
    if defaultName.None? then None
    else
      var i := Find(integrations, (x: Integration) => n.lower(x.name) == n.Normal(defaultName.value));
      if i < |integrations| then Some(integrations[i].id) else None
  }

  function Migrated(n: Names, ps: Profiles): (c: Config)
    ensures |c.integrations| == |c.upstreams| == |c.policies| == |ps.profiles|
    ensures forall k :: 0 <= k < |ps.profiles| ==>
              c.integrations[k] == IntegrationOf(n, ps.profiles[k])
              && c.upstreams[k] == UpstreamOf(n, ps.profiles[k])
              && c.policies[k] == PolicyOf(n, ps.profiles[k])
  {
    var p := ps.profiles;
    var integrations := seq(|p|, k requires 0 <= k < |p| => IntegrationOf(n, p[k]));
    Config(DefaultId(n, ps.defaultName, integrations), integrations,
           seq(|p|, k requires 0 <= k < |p| => UpstreamOf(n, p[k])),
           seq(|p|, k requires 0 <= k < |p| => PolicyOf(n, p[k])))
  }

  /** The three parts of a profile: its data, the references between them, and
      identifiers derived from its trimmed and lowered name. */
  predicate CarriedOver(n: Names, p: Profile, i: Integration, u: Upstream, q: Policy) {
    var normal := n.lower(n.trim(p.name));
    && i.id == n.hash("integration", normal) && u.id == n.hash("upstream", normal) && q.id == n.hash("policy", normal)
    && i.name == u.name == q.name == p.name
    && i.upstream == u.id && i.policy == Some(q.id) && i.models == p.models && i.graphify == p.graphify
    && u.url == p.url && u.headers == p.headers
    && q.cache == p.cache && q.features == p.features
    && match p.auth
       case ApiKey(h, k) => u.secret == LegacyInline(k) && u.headerName == h
       case BearerToken(t) => u.secret == LegacyInline(t) && u.headerName == "authorization"
       case NoAuth => u.secret == NoSecret && u.headerName == "x-api-key"
  }

  method MigrateV1ToV2(n: Names, ps: Profiles) returns (c: Config)
    ensures c == Migrated(n, ps)
    ensures |c.integrations| == |c.upstreams| == |c.policies| == |ps.profiles|
    ensures forall k :: 0 <= k < |ps.profiles| ==>
              CarriedOver(n, ps.profiles[k], c.integrations[k], c.upstreams[k], c.policies[k])
  {
    var integrations: seq<Integration> := [];
    var upstreams: seq<Upstream> := [];
    var policies: seq<Policy> := [];
    ghost var m := Migrated(n, ps);
    for k := 0 to |ps.profiles|
      invariant integrations == m.integrations[..k]
      invariant upstreams == m.upstreams[..k]
      invariant policies == m.policies[..k]
    {
      var p := ps.profiles[k];
      var iId, uId, pId := n.Id("integration", p.name), n.Id("upstream", p.name), n.Id("policy", p.name);
      var (secret, headerName) := MigrateAuth(p.auth);
      upstreams := upstreams + [Upstream(uId, p.name, p.url, secret, headerName, p.headers)];
      policies := policies + [Policy(pId, p.name, p.cache, p.features)];
      integrations := integrations + [Integration(iId, p.name, uId, Some(pId), p.graphify, p.models)];
    }
    assert integrations == m.integrations && upstreams == m.upstreams && policies == m.policies;
    c := Config(DefaultId(n, ps.defaultName, integrations), integrations, upstreams, policies);
  }

  // ---- And back ----

  function FindUpstream(c: Config, id: string): nat {
    Find(c.upstreams, (u: Upstream) => u.id == id)
  }

  function FindPolicy(c: Config, id: Option<string>): Option<Policy> {
    if id.None? then None
    else
      var i := Find(c.policies, (p: Policy) => p.id == id.value);
      if i < |c.policies| then Some(c.policies[i]) else None
  }

  function LegacyAuth(u: Upstream): AuthMethod {
    if u.secret.LegacyInline? then
      if AsciiLower(u.headerName) == "authorization" then BearerToken(u.secret.value)
      else ApiKey(u.headerName, u.secret.value)
    else NoAuth
  }

  /** An inline secret becomes a bearer token in an `authorization` header, in
      whatever case that is written, and an API key in any other; a secret that
      is not inline is not carried over. */
  lemma LegacyAuthByHeader(u: Upstream)
    ensures !u.secret.LegacyInline? <==> LegacyAuth(u) == NoAuth
    ensures u.secret.LegacyInline? ==>
              LegacyAuth(u) == if EqualIgnoringCase(u.headerName, "authorization") then BearerToken(u.secret.value)
                               else ApiKey(u.headerName, u.secret.value)
  {
    AsciiLowerForgetsCase(u.headerName, "authorization");
    AuthorizationIsLower();
  }

  /** A policy without cache settings reads as the default ones. */
  function LegacyCache(p: Policy): CachePolicy {
    if p.cache.Some? then p.cache.value else CachePolicy(true, Observe, Standard)
  }

  function LegacyProfile(i: Integration, u: Upstream, p: Option<Policy>): Profile {
    Profile(i.name, u.url, LegacyAuth(u), u.headers, i.models,
            if p.Some? then Some(LegacyCache(p.value)) else None,
            if p.Some? then p.value.features else Features(None, None, None), i.graphify)
  }

  /** `p` keeps the integration's own settings, takes its target from the first
      upstream the integration refers to and its settings from the first policy,
      where missing cache settings become the default ones. */
  ghost predicate Legacy(c: Config, i: Integration, p: Profile) {
    && p.name == i.name && p.models == i.models && p.graphify == i.graphify
    && (forall u :: FirstWith(UpstreamIds(c), i.upstream, u) ==>
          p.url == c.upstreams[u].url && p.headers == c.upstreams[u].headers && p.auth == LegacyAuth(c.upstreams[u]))
    && (forall q :: i.policy.Some? && FirstWith(PolicyIds(c), i.policy.value, q) ==>
          && p.features == c.policies[q].features
          && p.cache == Some(if c.policies[q].cache.Some? then c.policies[q].cache.value
                             else CachePolicy(true, Observe, Standard)))
    && (i.policy.None? || i.policy.value !in PolicyIds(c) ==>
          p.cache == None && p.features == Features(None, None, None))
  }

  lemma FirstIntegrationFound(c: Config, id: string) returns (i: nat)
    ensures i == Find(c.integrations, (x: Integration) => x.id == id)
    ensures i < |c.integrations| <==> id in IntegrationIds(c)
    ensures forall k :: FirstWith(IntegrationIds(c), id, k) ==> i == k
  {
    var ids := IntegrationIds(c);
    i := Find(c.integrations, (x: Integration) => x.id == id);
    if i < |ids| {
      assert ids[i] == id;
    }
    forall k | FirstWith(ids, id, k)
      ensures i == k
    {
      assert forall j :: 0 <= j < k ==> ids[..k][j] == c.integrations[j].id;
      assert k == i;
    }
  }

  /** The legacy default is the name of the first integration with the
      identifier, if there is one. */
  lemma LegacyDefaultIsFirst(c: Config)
    ensures LegacyDefault(c).Some? <==> c.defaultIntegration.Some? && c.defaultIntegration.value in IntegrationIds(c)
    ensures forall k :: c.defaultIntegration.Some? && FirstWith(IntegrationIds(c), c.defaultIntegration.value, k) ==>
              LegacyDefault(c) == Some(c.integrations[k].name)
  {
    if c.defaultIntegration.Some? {
      var _ := FirstIntegrationFound(c, c.defaultIntegration.value);
    }
  }

  lemma FirstUpstreamFound(c: Config, id: string)
    ensures FindUpstream(c, id) < |c.upstreams| <==> id in UpstreamIds(c)
    ensures forall k :: FirstWith(UpstreamIds(c), id, k) ==> FindUpstream(c, id) == k
  {
    var ids := UpstreamIds(c);
    if FindUpstream(c, id) < |ids| {
      assert ids[FindUpstream(c, id)] == id;
    }
    forall k | FirstWith(ids, id, k)
      ensures FindUpstream(c, id) == k
    {
      assert forall j :: 0 <= j < k ==> ids[..k][j] == c.upstreams[j].id;
      assert k == FindUpstream(c, id);
    }
  }

  lemma FirstPolicyFound(c: Config, id: Option<string>)
    ensures FindPolicy(c, id).Some? <==> id.Some? && id.value in PolicyIds(c)
    ensures forall k :: id.Some? && FirstWith(PolicyIds(c), id.value, k) ==> FindPolicy(c, id) == Some(c.policies[k])
  {
    if id.Some? {
      var ids := PolicyIds(c);
      var q := Find(c.policies, (p: Policy) => p.id == id.value);
      if q < |ids| {
        assert ids[q] == id.value;
      }
      forall k | FirstWith(ids, id.value, k)
        ensures q == k
      {
        assert forall j :: 0 <= j < k ==> ids[..k][j] == c.policies[j].id;
        assert k == q;
      }
    }
  }

  /** An integration goes back exactly when its upstream is there, and then to a
      profile put together from the first upstream and policy it refers to. */
  lemma LegacyFromFirst(c: Config, i: Integration)
    ensures FindUpstream(c, i.upstream) < |c.upstreams| <==> i.upstream in UpstreamIds(c)
    ensures FindUpstream(c, i.upstream) < |c.upstreams| ==>
              Legacy(c, i, LegacyProfile(i, c.upstreams[FindUpstream(c, i.upstream)], FindPolicy(c, i.policy)))
  {
    FirstUpstreamFound(c, i.upstream);
    FirstPolicyFound(c, i.policy);
  }

  function LegacyDefault(c: Config): Option<string> {
    if c.defaultIntegration.None? then None
    else
      var i := Find(c.integrations, (x: Integration) => x.id == c.defaultIntegration.value);
      if i < |c.integrations| then Some(c.integrations[i].name) else None
  }

  method ConfigToLegacyProfiles(c: Config) returns (r: Result<Profiles, string>)
    ensures r.Err? <==> exists k :: 0 <= k < |c.integrations|
                          && FindUpstream(c, c.integrations[k].upstream) == |c.upstreams|
    ensures r.Ok? ==>
              && |r.value.profiles| == |c.integrations|
              && r.value.defaultName == LegacyDefault(c)
              && forall k :: 0 <= k < |c.integrations| ==>
                   && FindUpstream(c, c.integrations[k].upstream) < |c.upstreams|
                   && r.value.profiles[k] == LegacyProfile(c.integrations[k],
                                              c.upstreams[FindUpstream(c, c.integrations[k].upstream)],
                                              FindPolicy(c, c.integrations[k].policy))
  {
    var profiles: seq<Profile> := [];
    for k := 0 to |c.integrations|
      invariant |profiles| == k
      invariant forall j :: 0 <= j < k ==>
                  && FindUpstream(c, c.integrations[j].upstream) < |c.upstreams|
                  && profiles[j] == LegacyProfile(c.integrations[j],
                                      c.upstreams[FindUpstream(c, c.integrations[j].upstream)],
                                      FindPolicy(c, c.integrations[j].policy))
    {
      var integration := c.integrations[k];
      var u := FindUpstream(c, integration.upstream);
      if u == |c.upstreams| {
        return Err("upstream " + integration.upstream + " not found");
      }
      profiles := profiles + [LegacyProfile(integration, c.upstreams[u], FindPolicy(c, integration.policy))];
    }
    return Ok(Profiles(LegacyDefault(c), profiles));
  }

  /** What the method returns for a migrated configuration, in the terms of the
      profiles: each keeps its own name, models and graph settings, takes its
      URL, headers and credential from the first profile with the same upstream
      identifier, and its policy from the first with the same policy identifier. */
  function FirstLike(n: Names, ps: seq<Profile>, kind: string, k: nat): (i: nat)
    requires k < |ps|
    ensures i <= k && n.Id(kind, ps[i].name) == n.Id(kind, ps[k].name)
    ensures forall j :: 0 <= j < i ==> n.Id(kind, ps[j].name) != n.Id(kind, ps[k].name)
  {
    Find(ps, (p: Profile) => n.Id(kind, p.name) == n.Id(kind, ps[k].name))
  }

  function SettledAuth(a: AuthMethod): AuthMethod {
    match a
    case ApiKey(h, k) => if AsciiLower(h) == "authorization" then BearerToken(k) else a
    case _ => a
  }

  function RoundTripProfile(n: Names, ps: seq<Profile>, k: nat): Profile
    requires k < |ps|
  {
    var u := ps[FirstLike(n, ps, "upstream", k)];
    var p := ps[FirstLike(n, ps, "policy", k)];
    Profile(ps[k].name, u.url, SettledAuth(u.auth), u.headers, ps[k].models,
            Some(LegacyCache(PolicyOf(n, p))), p.features, ps[k].graphify)
  }

  function RoundTrip(n: Names, ps: Profiles): (r: Profiles)
    ensures |r.profiles| == |ps.profiles|
    ensures forall k :: 0 <= k < |r.profiles| ==> r.profiles[k] == RoundTripProfile(n, ps.profiles, k)
  {
    var p := ps.profiles;
    Profiles(DefaultBack(n, ps), seq(|p|, k requires 0 <= k < |p| => RoundTripProfile(n, p, k)))
  }

  lemma AuthorizationIsLower()
    ensures AsciiLower("authorization") == "authorization"
    ensures AsciiLower("x-api-key") != "authorization"
  {
  }

  lemma UpstreamReference(n: Names, ps: Profiles, k: nat)
    requires k < |ps.profiles|
    ensures var c := Migrated(n, ps);
            FindUpstream(c, c.integrations[k].upstream) == FirstLike(n, ps.profiles, "upstream", k)
  {
    var c := Migrated(n, ps);
    var u := FirstLike(n, ps.profiles, "upstream", k);
    assert forall j :: 0 <= j < |c.upstreams| ==> c.upstreams[j].id == n.Id("upstream", ps.profiles[j].name);
    assert c.upstreams[u].id == c.integrations[k].upstream;
  }

  lemma PolicyReference(n: Names, ps: Profiles, k: nat)
    requires k < |ps.profiles|
    ensures var c := Migrated(n, ps);
            FindPolicy(c, c.integrations[k].policy)
            == Some(PolicyOf(n, ps.profiles[FirstLike(n, ps.profiles, "policy", k)]))
  {
    var c := Migrated(n, ps);
    var p := FirstLike(n, ps.profiles, "policy", k);
    assert forall j :: 0 <= j < |c.policies| ==> c.policies[j].id == n.Id("policy", ps.profiles[j].name);
    var i := Find(c.policies, (q: Policy) => q.id == c.integrations[k].policy.value);
    assert c.policies[p].id == c.integrations[k].policy.value;
    assert i == p;
  }

  /** References of a migrated integration lead to the first bearers of the
      identifiers. */
  lemma References(n: Names, ps: Profiles, k: nat)
    requires k < |ps.profiles|
    ensures var c := Migrated(n, ps);
            && FindUpstream(c, c.integrations[k].upstream) == FirstLike(n, ps.profiles, "upstream", k)
            && FindPolicy(c, c.integrations[k].policy)
               == Some(PolicyOf(n, ps.profiles[FirstLike(n, ps.profiles, "policy", k)]))
  {
    UpstreamReference(n, ps, k);
    PolicyReference(n, ps, k);
  }

  lemma MigratedProfileBack(n: Names, ps: Profiles, k: nat)
    requires k < |ps.profiles|
    ensures var c := Migrated(n, ps);
            var u := FindUpstream(c, c.integrations[k].upstream);
            && u < |c.upstreams|
            && LegacyProfile(c.integrations[k], c.upstreams[u], FindPolicy(c, c.integrations[k].policy))
               == RoundTripProfile(n, ps.profiles, k)
  {
    References(n, ps, k);
    AuthorizationIsLower();
  }

  /** Migrating and converting back succeeds for every list of profiles. */
  method MigrateAndBack(n: Names, ps: Profiles) returns (r: Result<Profiles, string>)
    ensures r == Ok(RoundTrip(n, ps))
  {
    var c := MigrateV1ToV2(n, ps);
    r := ConfigToLegacyProfiles(c);
    forall k | 0 <= k < |ps.profiles| {
      MigratedProfileBack(n, ps, k);
    }
    assert r.value.profiles == RoundTrip(n, ps).profiles;
  }

  // ---- One round settles everything ----

  ghost predicate SameNames(ps: seq<Profile>, qs: seq<Profile>) {
    |qs| == |ps| && forall j :: 0 <= j < |ps| ==> qs[j].name == ps[j].name
  }

  lemma ProfileSettles(n: Names, ps: seq<Profile>, once: seq<Profile>, k: nat)
    requires SameNames(ps, once) && k < |ps|
    requires var u, p := FirstLike(n, ps, "upstream", k), FirstLike(n, ps, "policy", k);
             && once[k] == RoundTripProfile(n, ps, k)
             && once[u] == RoundTripProfile(n, ps, u) && once[p] == RoundTripProfile(n, ps, p)
    ensures RoundTripProfile(n, once, k) == once[k]
  {
    SameFirst(n, ps, once, "upstream", k);
    SameFirst(n, ps, once, "policy", k);
    AuthorizationIsLower();
  }

  /** A second round changes no profile, whatever identifiers collide. */
  lemma ProfilesSettle(n: Names, ps: Profiles)
    ensures RoundTrip(n, RoundTrip(n, ps)).profiles == RoundTrip(n, ps).profiles
  {
    forall k | 0 <= k < |ps.profiles| {
      ProfileSettles(n, ps.profiles, RoundTrip(n, ps).profiles, k);
    }
  }

  lemma SameFirst(n: Names, ps: seq<Profile>, qs: seq<Profile>, kind: string, k: nat)
    requires SameNames(ps, qs) && k < |ps|
    ensures FirstLike(n, qs, kind, k) == FirstLike(n, ps, kind, k)
    ensures FirstLike(n, ps, kind, FirstLike(n, ps, kind, k)) == FirstLike(n, ps, kind, k)
  {
  }

  /** The profile the legacy default names, or the number of profiles. */
  function DefaultProfile(n: Names, ps: Profiles): (k: nat)
    ensures k <= |ps.profiles|
  {
    if ps.defaultName.None? then |ps.profiles|
    else Find(ps.profiles, (p: Profile) => n.lower(p.name) == n.Normal(ps.defaultName.value))
  }

  /** What becomes of the default on the way there and back. */
  function DefaultBack(n: Names, ps: Profiles): Option<string> {
    LegacyDefault(Migrated(n, ps))
  }

  /** The default comes back as the name of the first profile that shares the
      integration identifier of the one it named. */
  lemma DefaultComesBack(n: Names, ps: Profiles)
    ensures var k := DefaultProfile(n, ps);
            var id := Migrated(n, ps).defaultIntegration;
            if k == |ps.profiles| then id == None && DefaultBack(n, ps) == None
            else
              && id == Some(n.Id("integration", ps.profiles[k].name))
              && DefaultBack(n, ps) == Some(ps.profiles[FirstLike(n, ps.profiles, "integration", k)].name)
  {
    var c := Migrated(n, ps);
    var k := DefaultProfile(n, ps);
    if ps.defaultName.Some? {
      var i := Find(c.integrations, (x: Integration) => n.lower(x.name) == n.Normal(ps.defaultName.value));
      assert forall j :: 0 <= j < |c.integrations| ==> c.integrations[j].name == ps.profiles[j].name;
      assert i == k;
      if k < |ps.profiles| {
        DefaultIntegration(n, ps, k);
      }
    }
  }

  lemma DefaultIntegration(n: Names, ps: Profiles, k: nat)
    requires k < |ps.profiles|
    requires Migrated(n, ps).defaultIntegration == Some(n.Id("integration", ps.profiles[k].name))
    ensures var c := Migrated(n, ps);
            Find(c.integrations, (x: Integration) => x.id == c.defaultIntegration.value)
            == FirstLike(n, ps.profiles, "integration", k)
  {
    var c := Migrated(n, ps);
    assert forall j :: 0 <= j < |c.integrations| ==>
             c.integrations[j].id == n.Id("integration", ps.profiles[j].name);
  }

  /** Some profile answers to `name` as a default. */
  predicate Answered(n: Names, ps: seq<Profile>, name: string) {
    exists k :: 0 <= k < |ps| && n.lower(ps[k].name) == n.Normal(name)
  }

  /** `qs` has the names of `ps` and the default that a round trip gives: its
      default is found if and only if some profile answers to it, and then it
      has the integration identifier of the original default. */
  lemma SecondDefault(n: Names, ps: Profiles, qs: Profiles)
    requires n.Lawful() && SameNames(ps.profiles, qs.profiles) && DefaultProfile(n, ps) < |ps.profiles|
    requires var first := FirstLike(n, ps.profiles, "integration", DefaultProfile(n, ps));
             qs.defaultName == Some(ps.profiles[first].name)
    ensures var l := DefaultProfile(n, qs);
            && (l < |ps.profiles| <==> Answered(n, ps.profiles, qs.defaultName.value))
            && (l < |ps.profiles| ==>
                  FirstLike(n, qs.profiles, "integration", l)
                  == FirstLike(n, ps.profiles, "integration", DefaultProfile(n, ps)))
  {
    var k, l := DefaultProfile(n, ps), DefaultProfile(n, qs);
    var first := FirstLike(n, ps.profiles, "integration", k);
    if l < |ps.profiles| {
      LoweredIsNormal(n, ps.profiles[l].name, ps.profiles[first].name);
      SameFirst(n, ps.profiles, qs.profiles, "integration", l);
      FirstLikeAgrees(n, ps.profiles, "integration", k, l);
    }
  }

  lemma LoweredIsNormal(n: Names, a: string, b: string)
    requires n.Lawful() && n.lower(a) == n.Normal(b)
    ensures n.Normal(a) == n.Normal(b)
  {
    assert n.LawfulAt(a) && n.LawfulAt(b) && n.LawfulAt(n.trim(b));
    calc {
      n.Normal(a);
      n.trim(n.lower(a));
      n.trim(n.lower(n.trim(b)));
      n.lower(n.trim(n.trim(b)));
      n.Normal(b);
    }
  }

  /** Profiles with the names of `ps` and the default that came back keep that
      default in a second round if and only if one of them answers to it. */
  lemma DefaultSettlesIff(n: Names, ps: Profiles, once: Profiles)
    requires n.Lawful() && SameNames(ps.profiles, once.profiles) && once.defaultName == DefaultBack(n, ps)
    ensures DefaultBack(n, once) == once.defaultName
            <==> (once.defaultName.None? || Answered(n, ps.profiles, once.defaultName.value))
  {
    DefaultComesBack(n, ps);
    DefaultComesBack(n, once);
    if once.defaultName.Some? {
      SecondDefault(n, ps, once);
    }
  }

  lemma FirstLikeAgrees(n: Names, ps: seq<Profile>, kind: string, k: nat, l: nat)
    requires k < |ps| && l < |ps| && n.Id(kind, ps[k].name) == n.Id(kind, ps[l].name)
    ensures FirstLike(n, ps, kind, k) == FirstLike(n, ps, kind, l)
  {
  }

  /** Names that normalise differently get different integration identifiers. */
  ghost predicate NoFalseCollision(n: Names, ps: seq<Profile>) {
    forall i, j :: 0 <= i < |ps| && 0 <= j < |ps| ==>
      n.Id("integration", ps[i].name) == n.Id("integration", ps[j].name) ==>
        n.Normal(ps[i].name) == n.Normal(ps[j].name)
  }

  lemma DefaultSettles(n: Names, ps: Profiles, once: Profiles)
    requires n.Lawful() && SameNames(ps.profiles, once.profiles) && once.defaultName == DefaultBack(n, ps)
    requires NoFalseCollision(n, ps.profiles)
    ensures DefaultBack(n, once) == once.defaultName
  {
    DefaultSettlesIff(n, ps, once);
    DefaultComesBack(n, ps);
    if once.defaultName.Some? {
      var k := DefaultProfile(n, ps);
      var first := FirstLike(n, ps.profiles, "integration", k);
      assert n.Normal(ps.profiles[first].name) == n.Normal(ps.profiles[k].name);
      LoweredIsNormal(n, ps.profiles[k].name, ps.defaultName.value);
      assert Answered(n, ps.profiles, once.defaultName.value);
    }
  }

  /** Profiles that truly normalise alike may share identifiers: migrating and
      converting back is still idempotent. */
  lemma RoundTripIdempotent(n: Names, ps: Profiles)
    requires n.Lawful() && NoFalseCollision(n, ps.profiles)
    ensures RoundTrip(n, RoundTrip(n, ps)) == RoundTrip(n, ps)
  {
    ProfilesSettle(n, ps);
    DefaultSettles(n, ps, RoundTrip(n, ps));
  }

  // ---- Resolving an integration ----

  datatype ResolvedAuth = ResolvedAuth(headerName: string, secret: SecretRef, credential: Option<string>)

  datatype Resolved = Resolved(
    id: string, name: string, url: string, headers: map<string, string>, auth: ResolvedAuth,
    cache: Option<CachePolicy>, features: Features, graphify: Option<Settings>, models: map<string, string>)

  /** What environment variables hold and commands print. */
  datatype Secrets = Secrets(variable: string -> Option<string>, output: string -> Option<string>)

  function ResolveSecret(env: Secrets, s: SecretRef): Option<string> {
    match s
    case Environment(key) => env.variable(key)
    case Command(program) => env.output(program)
    case LegacyInline(value) => Some(value)
    case NoSecret => None
  }

  function ResolveIntegration(env: Secrets, c: Config, i: Integration): Resolved {
    var u := FindUpstream(c, i.upstream);
    var p := FindPolicy(c, i.policy);
    var (url, headers, auth) :=
      if u < |c.upstreams| then
        var up := c.upstreams[u];
        (up.url, up.headers, ResolvedAuth(up.headerName, up.secret, ResolveSecret(env, up.secret)))
      else ("", map[], ResolvedAuth("", NoSecret, None));
    Resolved(i.id, i.name, url, headers, auth,
             if p.Some? then p.value.cache else None,
             if p.Some? then p.value.features else Features(None, None, None), i.graphify, i.models)
  }

  function ResolveDefault(env: Secrets, c: Config): Option<Resolved> {
    if c.defaultIntegration.None? then None
    else
      var i := Find(c.integrations, (x: Integration) => x.id == c.defaultIntegration.value);
      if i < |c.integrations| then Some(ResolveIntegration(env, c, c.integrations[i])) else None
  }

  /** Requests go to this upstream, with what its secret stands for: the value of
      a variable, the output of a command, the text itself, or nothing. */
  predicate SendsTo(env: Secrets, u: Upstream, r: Resolved) {
    && r.url == u.url && r.headers == u.headers
    && r.auth.headerName == u.headerName && r.auth.secret == u.secret
    && (u.secret.Environment? ==> r.auth.credential == env.variable(u.secret.key))
    && (u.secret.Command? ==> r.auth.credential == env.output(u.secret.program))
    && (u.secret.LegacyInline? ==> r.auth.credential == Some(u.secret.value))
    && (u.secret.NoSecret? ==> r.auth.credential == None)
  }

  /** `r` has the integration's own settings, the target and credential of the
      first upstream it refers to, and the settings of the first policy it refers
      to; what a missing reference would give is empty. */
  ghost predicate PutTogether(env: Secrets, c: Config, i: Integration, r: Resolved) {
    && r.id == i.id && r.name == i.name && r.graphify == i.graphify && r.models == i.models
    && (forall u :: FirstWith(UpstreamIds(c), i.upstream, u) ==> SendsTo(env, c.upstreams[u], r))
    && (i.upstream !in UpstreamIds(c) ==>
          r.url == "" && r.headers == map[] && r.auth == ResolvedAuth("", NoSecret, None))
    && (forall p :: i.policy.Some? && FirstWith(PolicyIds(c), i.policy.value, p) ==>
          r.cache == c.policies[p].cache && r.features == c.policies[p].features)
    && (i.policy.None? || i.policy.value !in PolicyIds(c) ==>
          r.cache == None && r.features == Features(None, None, None))
  }

  lemma IntegrationPutTogether(env: Secrets, c: Config, i: Integration)
    ensures PutTogether(env, c, i, ResolveIntegration(env, c, i))
  {
    FirstUpstreamFound(c, i.upstream);
    FirstPolicyFound(c, i.policy);
  }

  /** Over every configuration, as users write them: the default resolves to the
      first integration with its identifier, if there is one, put together from
      the first upstream and policy that integration refers to. */
  lemma ResolvesToFirst(env: Secrets, c: Config)
    ensures var r := ResolveDefault(env, c);
            && (r.Some? <==> c.defaultIntegration.Some? && c.defaultIntegration.value in IntegrationIds(c))
            && (forall i ::
                  c.defaultIntegration.Some? && FirstWith(IntegrationIds(c), c.defaultIntegration.value, i) ==>
                    r.Some? && PutTogether(env, c, c.integrations[i], r.value))
  {
    if c.defaultIntegration.Some? {
      var i := FirstIntegrationFound(c, c.defaultIntegration.value);
      if i < |c.integrations| {
        IntegrationPutTogether(env, c, c.integrations[i]);
      }
    }
  }

  /** Without command secrets only environment variables matter, and without
      environment secrets only what commands print. */
  lemma OnlyOwnSourceMatters(a: Secrets, b: Secrets, c: Config)
    ensures (forall u :: u in c.upstreams ==> !u.secret.Command?) && (forall k :: a.variable(k) == b.variable(k)) ==>
              ResolveDefault(a, c) == ResolveDefault(b, c)
    ensures (forall u :: u in c.upstreams ==> !u.secret.Environment?) && (forall k :: a.output(k) == b.output(k)) ==>
              ResolveDefault(a, c) == ResolveDefault(b, c)
  {
    if c.defaultIntegration.Some? {
      var i := Find(c.integrations, (x: Integration) => x.id == c.defaultIntegration.value);
      if i < |c.integrations| {
        var u := FindUpstream(c, c.integrations[i].upstream);
        if u < |c.upstreams| {
          assert c.upstreams[u] in c.upstreams;
        }
      }
    }
  }

  /** The credential a profile sends, and in which header. */
  function Credential(a: AuthMethod): (string, Option<string>) {
    match a
    case ApiKey(h, k) => (h, Some(k))
    case BearerToken(t) => ("authorization", Some(t))
    case NoAuth => ("x-api-key", None)
  }

  /** `r` is what one profile provides for each part: name, models and graph
      settings, where requests go and with which credential, and the features. */
  ghost predicate Provides(own: Profile, target: Profile, policy: Profile, r: Resolved) {
    && r.name == own.name && r.models == own.models && r.graphify == own.graphify
    && r.url == target.url && r.headers == target.headers
    && (r.auth.headerName, r.auth.credential) == Credential(target.auth)
    && r.cache == policy.cache && r.features == policy.features
  }

  lemma IntegrationResolves(env: Secrets, n: Names, ps: Profiles, k: nat)
    requires k < |ps.profiles|
    ensures Provides(ps.profiles[k], ps.profiles[FirstLike(n, ps.profiles, "upstream", k)],
                     ps.profiles[FirstLike(n, ps.profiles, "policy", k)],
                     ResolveIntegration(env, Migrated(n, ps), Migrated(n, ps).integrations[k]))
  {
    References(n, ps, k);
  }

  /** The default of a migrated configuration resolves to the profiles that
      carry the identifiers first. */
  lemma DefaultResolves(env: Secrets, n: Names, ps: Profiles)
    ensures var k := DefaultProfile(n, ps);
            var r := ResolveDefault(env, Migrated(n, ps));
            && (r.None? <==> k == |ps.profiles|)
            && (k < |ps.profiles| ==>
                  var j := FirstLike(n, ps.profiles, "integration", k);
                  Provides(ps.profiles[j], ps.profiles[FirstLike(n, ps.profiles, "upstream", j)],
                           ps.profiles[FirstLike(n, ps.profiles, "policy", j)], r.value))
  {
    DefaultComesBack(n, ps);
    var c := Migrated(n, ps);
    var k := DefaultProfile(n, ps);
    if k < |ps.profiles| {
      var j := FirstLike(n, ps.profiles, "integration", k);
      DefaultIntegration(n, ps, k);
      IntegrationResolves(env, n, ps, j);
    }
  }

  /** What identifiers are derived for. */
  const KINDS := {"integration", "upstream", "policy"}

  /** No earlier profile shares an identifier with this one. */
  ghost predicate FirstWithIds(n: Names, ps: seq<Profile>, k: nat)
    requires k < |ps|
  {
    forall kind, j :: kind in KINDS && 0 <= j < k ==> n.Id(kind, ps[j].name) != n.Id(kind, ps[k].name)
  }

  lemma FirstIsItself(n: Names, ps: seq<Profile>, kind: string, k: nat)
    requires k < |ps| && FirstWithIds(n, ps, k) && kind in KINDS
    ensures FirstLike(n, ps, kind, k) == k
  {
  }

  /** A default that shares no identifier with an earlier profile resolves to the
      profile it names, whole. */
  lemma DefaultResolvesToItsProfile(env: Secrets, n: Names, ps: Profiles)
    requires DefaultProfile(n, ps) < |ps.profiles| && FirstWithIds(n, ps.profiles, DefaultProfile(n, ps))
    ensures var p := ps.profiles[DefaultProfile(n, ps)];
            var r := ResolveDefault(env, Migrated(n, ps));
            r.Some? && Provides(p, p, p, r.value)
  {
    DefaultResolves(env, n, ps);
    var k := DefaultProfile(n, ps);
    FirstIsItself(n, ps.profiles, "integration", k);
    FirstIsItself(n, ps.profiles, "upstream", k);
    FirstIsItself(n, ps.profiles, "policy", k);
  }

  /** Nor does the round trip lose anything of such a profile: only an API key sent in an
      `authorization` header comes back as a bearer token, and missing cache
      settings come back as the default ones. */
  lemma RoundTripKeepsDistinct(n: Names, ps: Profiles, k: nat)
    requires k < |ps.profiles| && FirstWithIds(n, ps.profiles, k)
    ensures var p := ps.profiles[k];
            RoundTrip(n, ps).profiles[k]
            == p.(auth := SettledAuth(p.auth),
                  cache := if p.cache.Some? then p.cache else Some(CachePolicy(true, Observe, Standard)))
  {
    FirstIsItself(n, ps.profiles, "upstream", k);
    FirstIsItself(n, ps.profiles, "policy", k);
  }

  /** A round trip changes where requests go only by losing the default: the new
      default resolves if and only if a profile answers to it, and then to the
      same URL, headers, credential, features, models and graph settings, with
      the header name the same but for case and missing cache settings filled in. */
  lemma RoundTripResolvesAlike(env: Secrets, n: Names, ps: Profiles)
    requires n.Lawful()
    ensures var a := ResolveDefault(env, Migrated(n, ps));
            var b := ResolveDefault(env, Migrated(n, RoundTrip(n, ps)));
            && (b.Some? <==> a.Some? && Answered(n, ps.profiles, DefaultBack(n, ps).value))
            && (b.Some? ==> Alike(a.value, b.value))
  {
    DefaultComesBack(n, ps);
    DefaultResolves(env, n, ps);
    if DefaultProfile(n, ps) < |ps.profiles| {
      RoundTripNames(n, ps);
      SecondResolves(env, n, ps, RoundTrip(n, ps));
      if ResolveDefault(env, Migrated(n, RoundTrip(n, ps))).Some? {
        RoundTripProvides(n, ps, FirstLike(n, ps.profiles, "integration", DefaultProfile(n, ps)),
                          ResolveDefault(env, Migrated(n, ps)).value,
                          ResolveDefault(env, Migrated(n, RoundTrip(n, ps))).value);
      }
    } else {
      NoDefaultResolves(env, n, RoundTrip(n, ps));
    }
  }

  lemma RoundTripNames(n: Names, ps: Profiles)
    ensures SameNames(ps.profiles, RoundTrip(n, ps).profiles)
  {
  }

  lemma NoDefaultResolves(env: Secrets, n: Names, ps: Profiles)
    requires ps.defaultName.None?
    ensures ResolveDefault(env, Migrated(n, ps)).None?
  {
  }

  lemma SecondResolves(env: Secrets, n: Names, ps: Profiles, once: Profiles)
    requires n.Lawful() && SameNames(ps.profiles, once.profiles) && DefaultProfile(n, ps) < |ps.profiles|
    requires once.defaultName == DefaultBack(n, ps)
    ensures once.defaultName.Some?
    ensures var j := FirstLike(n, ps.profiles, "integration", DefaultProfile(n, ps));
            var b := ResolveDefault(env, Migrated(n, once));
            && (b.Some? <==> Answered(n, ps.profiles, once.defaultName.value))
            && (b.Some? ==>
                  Provides(once.profiles[j], once.profiles[FirstLike(n, ps.profiles, "upstream", j)],
                           once.profiles[FirstLike(n, ps.profiles, "policy", j)], b.value))
  {
    DefaultComesBack(n, ps);
    SecondDefault(n, ps, once);
    DefaultResolves(env, n, once);
    var j := FirstLike(n, ps.profiles, "integration", DefaultProfile(n, ps));
    SameFirst(n, ps.profiles, once.profiles, "upstream", j);
    SameFirst(n, ps.profiles, once.profiles, "policy", j);
  }

  lemma RoundTripProvides(n: Names, ps: Profiles, j: nat, a: Resolved, b: Resolved)
    requires j < |ps.profiles|
    requires var u, p := FirstLike(n, ps.profiles, "upstream", j), FirstLike(n, ps.profiles, "policy", j);
             var once := RoundTrip(n, ps).profiles;
             && Provides(ps.profiles[j], ps.profiles[u], ps.profiles[p], a)
             && Provides(once[j], once[u], once[p], b)
    ensures Alike(a, b)
  {
    var u, p := FirstLike(n, ps.profiles, "upstream", j), FirstLike(n, ps.profiles, "policy", j);
    SettledCredential(ps.profiles[u].auth);
  }

  ghost predicate Alike(a: Resolved, b: Resolved) {
    && b.name == a.name && b.models == a.models && b.graphify == a.graphify
    && b.url == a.url && b.headers == a.headers
    && b.auth.credential == a.auth.credential
    && AsciiLower(b.auth.headerName) == AsciiLower(a.auth.headerName)
    && b.features == a.features
    && b.cache == Some(if a.cache.Some? then a.cache.value else CachePolicy(true, Observe, Standard))
  }

  lemma SettledCredential(a: AuthMethod)
    ensures Credential(SettledAuth(a)).1 == Credential(a).1
    ensures AsciiLower(Credential(SettledAuth(a)).0) == AsciiLower(Credential(a).0)
  {
    AuthorizationIsLower();
  }
}
