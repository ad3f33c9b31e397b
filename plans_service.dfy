/**
 * The requests of the plans service: the filtering and searching
 * parameters and the URL shapes of plans, steps and routes.
 */
module PlansService {
  import opened Common
  import opened HttpParams

  /**
   * The rules of `getPlansFiltering` as written: the last one reads
   * `limite` and sends it under the name `idioma`.
   */
  const FilterRulesAsWritten: seq<Rule> := [
    Rule("idioma", "idioma"), Rule("titulo", "titulo"), Rule("descripcion", "descripcion"),
    Rule("id_usuario", "id_usuario"), Rule("limite", "idioma")
  ]

  /** The rules with `limite` sent under its own name. */
  const FilterRules: seq<Rule> := [
    Rule("idioma", "idioma"), Rule("titulo", "titulo"), Rule("descripcion", "descripcion"),
    Rule("id_usuario", "id_usuario"), Rule("limite", "limite")
  ]

  /** `getPlansFiltering(query)`, as written. */
  method FilteringAsWritten(api: string, query: Query) returns (req: Request)
    ensures req.url == api + "/plan"
    ensures req.params == Forwarded(query, FilterRulesAsWritten)
    ensures forall p :: p in req.params ==> p.0 != "limite"
  {
    var params := BuildParams(query, FilterRulesAsWritten);
    req := Request(api + "/plan", params);
    UnlistedNotSent(query, FilterRulesAsWritten, "limite");
  }

  /** `getPlansFiltering(query)` with the limit sent as `limite`. */
  method Filtering(api: string, query: Query) returns (req: Request)
    ensures req.url == api + "/plan"
    ensures req.params == Forwarded(query, FilterRules)
    ensures Present(query, "limite") ==> ("limite", query["limite"]) in req.params
    ensures forall p :: p in req.params && p.0 == "limite" ==> Present(query, "limite") && p.1 == query["limite"]
  {
    var params := BuildParams(query, FilterRules);
    req := Request(api + "/plan", params);
    ForwardedLimit(query);
  }

  /** Under the corrected rules the limit is sent, and only from `query["limite"]`. */
  lemma ForwardedLimit(query: Query)
    ensures Present(query, "limite") ==> ("limite", query["limite"]) in Forwarded(query, FilterRules)
    ensures forall p :: p in Forwarded(query, FilterRules) && p.0 == "limite" ==> Present(query, "limite") && p.1 == query["limite"]
  {
    forall p | p in Forwarded(query, FilterRules) && p.0 == "limite"
      ensures Present(query, "limite") && p.1 == query["limite"]
    {
      ForwardedExactly(query, FilterRules, p);
    }
    if Present(query, "limite") {
      ForwardedExactly(query, FilterRules, ("limite", query["limite"]));
      assert FilterRules[4] == Rule("limite", "limite");
    }
  }

  /**
   * With a language and a limit, the request as written carries `idioma`
   * twice and no `limite`; the corrected one carries the limit under its name.
   */
  lemma LimitSentAsLanguage()
    ensures Forwarded(map["idioma" := "es", "limite" := "5"], FilterRulesAsWritten) == [("idioma", "es"), ("idioma", "5")]
    ensures Forwarded(map["idioma" := "es", "limite" := "5"], FilterRules) == [("idioma", "es"), ("limite", "5")]
  {
    var q := map["idioma" := "es", "limite" := "5"];
    assert !Present(q, "titulo") && !Present(q, "descripcion") && !Present(q, "id_usuario");
    PrefixesOfFive(FilterRulesAsWritten, q);
    PrefixesOfFive(FilterRules, q);
  }

  /** Unfolds `Forwarded` over a five-rule chain whose middle three keys are absent. */
  lemma PrefixesOfFive(rules: seq<Rule>, q: Query)
    requires |rules| == 5 && rules[0] == Rule("idioma", "idioma")
    requires forall i :: 1 <= i < 4 ==> !Present(q, rules[i].from)
    requires Present(q, "idioma") && Present(q, rules[4].from)
    ensures Forwarded(q, rules) == [("idioma", q["idioma"]), (rules[4].to, q[rules[4].from])]
  {
    assert rules[..1][..0] == [];
    assert rules[..2][..1] == rules[..1];
    assert rules[..3][..2] == rules[..2];
    assert rules[..4][..3] == rules[..3];
    assert rules[..5][..4] == rules[..4];
    assert rules[..5] == rules;
    assert Forwarded(q, rules[..1]) == [("idioma", q["idioma"])];
    assert Forwarded(q, rules[..2]) == [("idioma", q["idioma"])];
    assert Forwarded(q, rules[..3]) == [("idioma", q["idioma"])];
    assert Forwarded(q, rules[..4]) == [("idioma", q["idioma"])];
  }

  /** The two keys `getPlansSearching` reads and sends. */
  const SearchRules: seq<Rule> := [Rule("idioma", "idioma"), Rule("busqueda", "busqueda")]

  /** `getPlansSearching(query)`: only `idioma` and `busqueda` go out. */
  method Searching(api: string, query: Query) returns (req: Request)
    ensures req.url == api + "/plan/results/search"
    ensures req.params == Forwarded(query, SearchRules)
  {
    var params := BuildParams(query, SearchRules);
    req := Request(api + "/plan/results/search", params);
  }

  /** `<api>/plan/<id>/route/<profile>`. */
  function RouteUrl(api: string, id: int, profile: string): (url: string)
    ensures url == api + "/plan/" + IntToString(id) + "/route/" + profile
  {
    api + "/plan/" + IntToString(id) + "/route/" + profile
  }

  /** `<api>/step/<planId>`: used to create and to update a step. */
  function StepUrl(api: string, planId: int): (url: string)
    ensures url == api + "/step/" + IntToString(planId)
  {
    api + "/step/" + IntToString(planId)
  }

  /** Different plan ids give different step URLs. */
  lemma StepUrlIdentifies(api: string, planId: int, planId2: int)
    requires StepUrl(api, planId) == StepUrl(api, planId2)
    ensures planId == planId2
  {
    var a := api + "/step/";
    assert StepUrl(api, planId)[|a|..] == IntToString(planId);
    assert StepUrl(api, planId2)[|a|..] == IntToString(planId2);
    IntToStringInjective(planId, planId2);
  }

  /** Different plan ids or profiles give different route URLs. */
  lemma RouteUrlDistinguishes(api: string, id: nat, p: string, id2: nat, p2: string)
    requires RouteUrl(api, id, p) == RouteUrl(api, id2, p2)
    ensures id == id2 && p == p2
  {
    var a := api + "/plan/";
    var s1, s2 := NatToString(id), NatToString(id2);
    var u1, u2 := RouteUrl(api, id, p), RouteUrl(api, id2, p2);
    assert u1 == a + (s1 + ("/route/" + p));
    assert u2 == a + (s2 + ("/route/" + p2));
    assert u1[|a|..] == s1 + ("/route/" + p);
    assert u2[|a|..] == s2 + ("/route/" + p2);
    DigitsThenSlash(s1, "/route/" + p, s2, "/route/" + p2);
    NatToStringValue(id);
    NatToStringValue(id2);
    assert ("/route/" + p)[7..] == p;
    assert ("/route/" + p2)[7..] == p2;
  }

  /** The length of the leading run of digits. */
  function DigitRun(u: string): (n: nat)
    ensures n <= |u|
  {
    if u == [] || !IsDigit(u[0]) then 0 else 1 + DigitRun(u[1..])
  }

  lemma {:induction false} DigitRunOf(s: string, t: string)
    requires AllDigits(s) && t != [] && t[0] == '/'
    ensures DigitRun(s + t) == |s|
    decreases |s|
  {
    if s == [] {
      assert s + t == t;
    } else {
      assert (s + t)[0] == s[0];
      assert (s + t)[1..] == s[1..] + t;
      DigitRunOf(s[1..], t);
    }
  }

  /** A digit string followed by a slash can be split in only one way. */
  lemma DigitsThenSlash(s: string, t: string, s2: string, t2: string)
    requires AllDigits(s) && AllDigits(s2) && t != [] && t2 != [] && t[0] == '/' && t2[0] == '/'
    requires s + t == s2 + t2
    ensures s == s2 && t == t2
  {
    DigitRunOf(s, t);
    DigitRunOf(s2, t2);
    var u := s + t;
    assert s == u[..|s|] && t == u[|s|..];
    assert s2 == (s2 + t2)[..|s2|] && t2 == (s2 + t2)[|s2|..];
  }
}
