/**
 * Query-string building shared by the HTTP services: each method goes
 * through a fixed list of keys and appends `(sent key, query[key])` to its
 * `HttpParams` whenever `query[key]` is truthy.
 */
module HttpParams {
  import opened Common

  /** A request: the URL and the query parameters in the order they were appended. */
  datatype Request = Request(url: string, params: seq<(string, string)>)

  /** A query record: a missing key reads as `undefined`. */
  type Query = map<string, string>

  /** `query[key]` is truthy. */
  predicate Present(query: Query, key: string) {
    key in query && query[key] != ""
  }

  /**
   * A forwarding rule: read `query[from]` and, when it is truthy, append it
   * under the name `to`.
   */
  datatype Rule = Rule(from: string, to: string)

  /** The same key read and sent. */
  function Same(keys: seq<string>): (rules: seq<Rule>)
    ensures |rules| == |keys|
    ensures forall i :: 0 <= i < |keys| ==> rules[i] == Rule(keys[i], keys[i])
  {
    if keys == [] then [] else [Rule(keys[0], keys[0])] + Same(keys[1..])
  }

  /** The parameters that a chain of rules appends, in rule order. */
  function Forwarded(query: Query, rules: seq<Rule>): (params: seq<(string, string)>)
    ensures |params| <= |rules|
    decreases |rules|
  {
    if rules == [] then []
    else
      var last := rules[|rules| - 1];
      Forwarded(query, rules[..|rules| - 1])
        + (if Present(query, last.from) then [(last.to, query[last.from])] else [])
  }

  /** The chain of conditional `params = params.append(...)` statements. */
  method BuildParams(query: Query, rules: seq<Rule>) returns (params: seq<(string, string)>)
    ensures params == Forwarded(query, rules)
  {
    params := [];
    var i := 0;
    while i < |rules|
      invariant 0 <= i <= |rules|
      invariant params == Forwarded(query, rules[..i])
    {
      assert rules[..i + 1][..i] == rules[..i];
      if Present(query, rules[i].from) {
        params := params + [(rules[i].to, query[rules[i].from])];
      }
      i := i + 1;
    }
    assert rules[..|rules|] == rules;
  }

  /**
   * A parameter is sent exactly when some rule reads a truthy value and
   * sends it under that name.
   */
  lemma {:induction false} ForwardedExactly(query: Query, rules: seq<Rule>, p: (string, string))
    ensures p in Forwarded(query, rules) <==>
      exists i :: 0 <= i < |rules| && Present(query, rules[i].from) && p == (rules[i].to, query[rules[i].from])
    decreases |rules|
  {
    if rules != [] {
      var init := rules[..|rules| - 1];
      ForwardedExactly(query, init, p);
      if p in Forwarded(query, rules) && p !in Forwarded(query, init) {
        assert p == (rules[|rules| - 1].to, query[rules[|rules| - 1].from]);
      }
      if exists i :: 0 <= i < |rules| && Present(query, rules[i].from) && p == (rules[i].to, query[rules[i].from]) {
        var i :| 0 <= i < |rules| && Present(query, rules[i].from) && p == (rules[i].to, query[rules[i].from]);
        if i < |rules| - 1 {
          assert init[i] == rules[i];
        }
      }
    }
  }

  /** At most one parameter per rule; the parameters follow the order of the rules. */
  lemma {:induction false} ForwardedLength(query: Query, rules: seq<Rule>)
    ensures |Forwarded(query, rules)| <= |rules|
    ensures (forall i :: 0 <= i < |rules| ==> Present(query, rules[i].from)) ==>
      |Forwarded(query, rules)| == |rules| &&
      forall i :: 0 <= i < |rules| ==> Forwarded(query, rules)[i] == (rules[i].to, query[rules[i].from])
    decreases |rules|
  {
    if rules != [] {
      ForwardedLength(query, rules[..|rules| - 1]);
    }
  }

  /** A name that no rule sends never appears among the parameters. */
  lemma {:induction false} UnlistedNotSent(query: Query, rules: seq<Rule>, name: string)
    requires forall i :: 0 <= i < |rules| ==> rules[i].to != name
    ensures forall p :: p in Forwarded(query, rules) ==> p.0 != name
    decreases |rules|
  {
    if rules != [] {
      UnlistedNotSent(query, rules[..|rules| - 1], name);
    }
  }
}
