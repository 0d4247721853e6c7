/** The rule partitioner: count the runtime rules of the integrand, generate
    the runtime part for them, and pop them from the integrand so that what
    is left is the static integrand. */
module RulePartition {
  import opened IntegralIR

  /** The keys of the integrand whose `is_runtime` is set. */
  function RuntimeRules(integrand: map<Rule, Expr>): (rs: set<Rule>)
    ensures rs <= integrand.Keys
    ensures forall r :: r in rs <==> r in integrand && r.isRuntime
  {
    set r | r in integrand.Keys && r.isRuntime
  }

  /** The integrand with every runtime rule taken out. */
  function StaticPart(integrand: map<Rule, Expr>): (s: map<Rule, Expr>)
    ensures forall r :: r in s <==> r in integrand && !r.isRuntime
    ensures forall r :: r in s ==> s[r] == integrand[r]
  {
    integrand - RuntimeRules(integrand)
  }

  /** Taking out the runtime rules a second time changes nothing. */
  lemma StaticPartIdempotent(integrand: map<Rule, Expr>)
    ensures StaticPart(StaticPart(integrand)) == StaticPart(integrand)
    ensures RuntimeRules(StaticPart(integrand)) == {}
  {
  }

  /** The runtime rules and the static part split the integrand: every key
      is in exactly one of them, so the sizes add up. */
  lemma PartitionSizes(integrand: map<Rule, Expr>)
    ensures |StaticPart(integrand)| + |RuntimeRules(integrand)| == |integrand|
  {
    var rs := RuntimeRules(integrand);
    assert StaticPart(integrand).Keys == integrand.Keys - rs;
    assert |integrand.Keys - rs| == |integrand.Keys| - |rs|;
  }

  /** The counting loop over `integrand.keys()`. */
  method CountRuntimeRules(integrand: map<Rule, Expr>) returns (n: nat)
    ensures n == |RuntimeRules(integrand)|
  {
    n := 0;
    var rest := integrand.Keys;
    while rest != {}
      invariant rest <= integrand.Keys
      invariant n == |RuntimeRules(integrand) - rest|
      decreases rest
    {
      var rule :| rule in rest;
      if rule.isRuntime {
        assert RuntimeRules(integrand) - (rest - {rule}) == (RuntimeRules(integrand) - rest) + {rule};
        n := n + 1;
      } else {
        assert RuntimeRules(integrand) - (rest - {rule}) == RuntimeRules(integrand) - rest;
      }
      rest := rest - {rule};
    }
  }

  /** The second loop over `integrand.keys()`: every runtime rule is
      appended to `remove_rules`, and `runtime_part` holds what
      `generate_runtime` returned for the last of them (or `[]`). */
  method CollectRuntimeRules(integrand: map<Rule, Expr>,
                             generateRuntime: (map<Rule, Expr>, Rule) -> AbstractCode)
    returns (removeRules: seq<Rule>, runtimePart: AbstractCode)
    ensures forall r :: r in removeRules <==> r in RuntimeRules(integrand)
    ensures forall i, j :: 0 <= i < j < |removeRules| ==> removeRules[i] != removeRules[j]
    ensures |removeRules| == |RuntimeRules(integrand)|
    ensures |removeRules| == 0 ==> runtimePart == []
    ensures |removeRules| > 0 ==>
              runtimePart == generateRuntime(integrand, removeRules[|removeRules| - 1])
  {
    removeRules, runtimePart := [], [];
    var rest := integrand.Keys;
    ghost var found: set<Rule> := {};
    while rest != {}
      invariant rest <= integrand.Keys
      invariant forall r :: r in found <==> r in integrand && r.isRuntime && r !in rest
      invariant forall r :: r in removeRules <==> r in found
      invariant forall i, j :: 0 <= i < j < |removeRules| ==> removeRules[i] != removeRules[j]
      invariant |removeRules| == |found|
      invariant |removeRules| == 0 ==> runtimePart == []
      invariant |removeRules| > 0 ==>
                  runtimePart == generateRuntime(integrand, removeRules[|removeRules| - 1])
      decreases rest
    {
      var rule :| rule in rest;
      if rule.isRuntime {
        assert rule !in removeRules;
        runtimePart := generateRuntime(integrand, rule);
        removeRules := removeRules + [rule];
        found := found + {rule};
        assert removeRules[|removeRules| - 1] == rule;
      }
      rest := rest - {rule};
    }
    assert found == RuntimeRules(integrand);
  }

  /** `for rule in remove_rules: integrand.pop(rule)`. */
  method RemoveRules(expression: IntegralExpression, removeRules: seq<Rule>)
    requires forall i, j :: 0 <= i < j < |removeRules| ==> removeRules[i] != removeRules[j]
    requires forall r :: r in removeRules ==> r in expression.integrand
    modifies expression
    ensures forall r :: r in expression.integrand <==>
              r in old(expression.integrand) && r !in removeRules
    ensures forall r :: r in expression.integrand ==>
              expression.integrand[r] == old(expression.integrand)[r]
  {
    var i := 0;
    while i < |removeRules|
      invariant 0 <= i <= |removeRules|
      invariant forall r :: r in expression.integrand <==>
                  r in old(expression.integrand) && r !in removeRules[..i]
      invariant forall r :: r in expression.integrand ==>
                  expression.integrand[r] == old(expression.integrand)[r]
    {
      assert removeRules[i] !in removeRules[..i];
      assert removeRules[..i + 1] == removeRules[..i] + [removeRules[i]];
      var _ := expression.Pop(removeRules[i]);
      i := i + 1;
    }
    assert removeRules[..i] == removeRules;
  }
}
