/** The access rules of global/config/SecurityConfig.java: the
    authorizeHttpRequests table, where the first rule whose method and path
    match decides, and the CORS configuration registered for every path. */
module SecurityRules {
  import opened Base

  datatype HttpMethod = GET | HEAD | POST | PUT | PATCH | DELETE | OPTIONS | TRACE

  /** A request-matcher path pattern: an exact path, or a prefix followed by "/" and a double star, which
      matches the prefix itself and every path below it. */
  datatype Pattern = Exact(path: string) | Below(prefix: string)

  predicate Matches(p: Pattern, path: string)
  {
    match p
    case Exact(e) => path == e
    case Below(prefix) => path == prefix || StartsWith(path, prefix + "/")
  }

  predicate MatchesAny(patterns: seq<Pattern>, path: string)
  {
    exists i :: 0 <= i < |patterns| && Matches(patterns[i], path)
  }

  datatype Access = PermitAll | Authenticated

  /** requestMatchers([method,] patterns...).access(): no HTTP method means any. */
  datatype Rule = Rule(httpMethod: Option<HttpMethod>, patterns: seq<Pattern>, access: Access)

  predicate RuleMatches(r: Rule, m: HttpMethod, path: string)
  {
    (r.httpMethod.None? || r.httpMethod.value == m) && MatchesAny(r.patterns, path)
  }

  /** The table, in declaration order; anyRequest().authenticated() is the fallback. */
  const Rules: seq<Rule> := [
    Rule(Some(OPTIONS), [Below("")], PermitAll),
    Rule(Some(GET), [Exact("/api/v1/products"), Below("/api/v1/products")], PermitAll),
    Rule(None, [Exact("/"), Exact("/login"), Below("/oauth2"), Exact("/api/v1/auth/reissue")], PermitAll)
  ]

  /** The first matching rule decides; when none matches, authentication is required. */
  function FirstMatch(rules: seq<Rule>, m: HttpMethod, path: string): (a: Access)
    ensures (forall i :: 0 <= i < |rules| ==> !RuleMatches(rules[i], m, path)) ==> a == Authenticated
    ensures (exists i :: 0 <= i < |rules| && RuleMatches(rules[i], m, path)) ==>
              exists i :: 0 <= i < |rules| && RuleMatches(rules[i], m, path) && a == rules[i].access &&
                          forall j :: 0 <= j < i ==> !RuleMatches(rules[j], m, path)
  {
    if |rules| == 0 then Authenticated
    else if RuleMatches(rules[0], m, path) then rules[0].access
    else
      var a := FirstMatch(rules[1..], m, path);
      assert forall i :: 1 <= i < |rules| ==> rules[i] == rules[1..][i - 1];
      a
  }

  function Authorize(m: HttpMethod, path: string): Access
  {
    FirstMatch(Rules, m, path)
  }

  /** The public paths of the third rule. */
  predicate PublicPath(path: string)
  {
    path == "/" || path == "/login" || path == "/oauth2" || StartsWith(path, "/oauth2/") ||
    path == "/api/v1/auth/reissue"
  }

  /** The product catalogue paths of the second rule. */
  predicate CatalogPath(path: string)
  {
    path == "/api/v1/products" || StartsWith(path, "/api/v1/products/")
  }

  /** Every path starts with "/", so the all-paths pattern matches it. */
  lemma EveryPathBelowRoot(path: string)
    requires |path| > 0 && path[0] == '/'
    ensures Matches(Below(""), path)
  {
  }

  /** The table in one formula: a request is let through without
      authentication exactly when it is a pre-flight, a catalogue read, or
      for a public path. */
  lemma AuthorizeSpec(m: HttpMethod, path: string)
    requires |path| > 0 && path[0] == '/'
    ensures Authorize(m, path) == PermitAll <==> m == OPTIONS || (m == GET && CatalogPath(path)) || PublicPath(path)
  {
    OptionsRule(m, path);
    CatalogRule(m, path);
    PublicRule(m, path);
    var tail1 := Rules[1..];
    var tail2 := tail1[1..];
    assert tail1[0] == Rules[1] && tail2[0] == Rules[2] && tail2[1..] == [];
    FirstMatchStep(Rules, m, path);
    FirstMatchStep(tail1, m, path);
    FirstMatchStep(tail2, m, path);
    FirstMatchStep(tail2[1..], m, path);
  }

  /** One step of the first-match search. */
  lemma FirstMatchStep(rules: seq<Rule>, m: HttpMethod, path: string)
    ensures |rules| == 0 ==> FirstMatch(rules, m, path) == Authenticated
    ensures |rules| > 0 ==> FirstMatch(rules, m, path) ==
                              (if RuleMatches(rules[0], m, path) then rules[0].access else FirstMatch(rules[1..], m, path))
  {
  }

  lemma OptionsRule(m: HttpMethod, path: string)
    requires |path| > 0 && path[0] == '/'
    ensures RuleMatches(Rules[0], m, path) <==> m == OPTIONS
  {
    assert Matches(Rules[0].patterns[0], path);
  }

  lemma CatalogRule(m: HttpMethod, path: string)
    ensures RuleMatches(Rules[1], m, path) <==> m == GET && CatalogPath(path)
  {
    var ps := Rules[1].patterns;
    assert MatchesAny(ps, path) <==> Matches(ps[0], path) || Matches(ps[1], path);
  }

  lemma PublicRule(m: HttpMethod, path: string)
    ensures RuleMatches(Rules[2], m, path) <==> PublicPath(path)
  {
    var ps := Rules[2].patterns;
    assert MatchesAny(ps, path) <==> Matches(ps[0], path) || Matches(ps[1], path) || Matches(ps[2], path) || Matches(ps[3], path);
  }

  /** Writing to the catalogue needs a logged-in user. */
  lemma CatalogWritesNeedLogin(m: HttpMethod, path: string)
    requires |path| > 0 && path[0] == '/' && CatalogPath(path) && m != GET && m != OPTIONS
    ensures Authorize(m, path) == Authenticated
  {
    AuthorizeSpec(m, path);
    CatalogNotPublic(path);
  }

  lemma CatalogNotPublic(path: string)
    requires CatalogPath(path)
    ensures !PublicPath(path)
  {
    var catalog := "/api/v1/products";
    assert |path| >= |catalog| && path[..|catalog|] == catalog by {
      if path != catalog {
        assert path[..|catalog| + 1] == catalog + "/";
        assert path[..|catalog|] == (catalog + "/")[..|catalog|];
      }
    }
    assert path[1] == catalog[1] == 'a';
    assert path[8] == catalog[8] == 'p';
    var reissue := "/api/v1/auth/reissue";
    assert path != reissue by {
      assert reissue[8] == 'a';
    }
  }

  /** The CORS configuration (corsConfigurationSource). */
  datatype CorsConfiguration = CorsConfiguration(
    allowedOrigins: seq<string>,
    allowedMethods: seq<HttpMethod>,
    allowedHeaders: seq<string>,
    allowCredentials: bool,
    maxAgeSeconds: int)

  const FrontEndOrigin: string := "http://localhost:3000"

  const Cors: CorsConfiguration :=
    CorsConfiguration([FrontEndOrigin], [GET, POST, PUT, PATCH, DELETE, OPTIONS], ["*"], true, 3600)

  /** The configuration registered for all paths: the same for every path. */
  function CorsFor(path: string): (c: CorsConfiguration)
    ensures c.allowedOrigins == [FrontEndOrigin] && c.allowCredentials && c.maxAgeSeconds == 3600
    ensures forall m :: m != HEAD && m != TRACE ==> m in c.allowedMethods
    ensures forall i :: 0 <= i < |c.allowedMethods| ==> c.allowedMethods[i] != HEAD && c.allowedMethods[i] != TRACE
    ensures c.allowedHeaders == ["*"]
  {
    assert forall m :: m != HEAD && m != TRACE ==> m == Cors.allowedMethods[Index(m)];
    Cors
  }

  /** Where an allowed method sits in the CORS method list. */
  function Index(m: HttpMethod): nat
  {
    match m
    case GET => 0
    case POST => 1
    case PUT => 2
    case PATCH => 3
    case DELETE => 4
    case OPTIONS => 5
    case HEAD => 6
    case TRACE => 7
  }
}
