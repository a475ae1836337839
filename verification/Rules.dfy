/**
 The rule loop: one pass over the snapshot's rules, and what it means without
 an order.  The rule engine is any evaluator of conditions; for seeded rules it
 is the reader of printed conditions.
 */
module Rules {
  import opened Conditions
  import opened Sums
  import opened Tables

  type Engine = (string, Ctx) -> Verdict

  /** The rule is enabled and its condition evaluates, without error, to true. */
  predicate Fires(rule: RuleState, ctx: Ctx, engine: Engine) {
    rule.enabled && engine(rule.condition, ctx) == Yes
  }

  /** What a rule contributes to the multiplier. */
  function Factor(ctx: Ctx, engine: Engine): RuleState -> real {
    (rule: RuleState) => if Fires(rule, ctx, engine) && rule.action.rateMultiplier > 0.0 then rule.action.rateMultiplier else 1.0
  }

  predicate Denied(rules: seq<RuleState>, ctx: Ctx, engine: Engine) {
    exists i :: 0 <= i < |rules| && Fires(rules[i], ctx, engine) && rules[i].action.deny
  }

  /** Rule i fires and names a provider, and no later rule does both. */
  predicate LastNamed(rules: seq<RuleState>, ctx: Ctx, engine: Engine, i: int) {
    && 0 <= i < |rules|
    && Fires(rules[i], ctx, engine) && rules[i].action.forceProvider != ""
    && forall j :: i < j < |rules| && Fires(rules[j], ctx, engine) ==> rules[j].action.forceProvider == ""
  }

  ghost predicate Forces(rules: seq<RuleState>, ctx: Ctx, engine: Engine, provider: string) {
    if provider == "" then
      forall j :: 0 <= j < |rules| && Fires(rules[j], ctx, engine) ==> rules[j].action.forceProvider == ""
    else
      exists i :: LastNamed(rules, ctx, engine, i) && rules[i].action.forceProvider == provider
  }

  /** Among the first i rules, `named` is the last that fires and names a provider, and -1 when none does. */
  predicate NamedSoFar(rules: seq<RuleState>, ctx: Ctx, engine: Engine, i: int, named: int, provider: string) {
    && -1 <= named < i <= |rules|
    && (provider == "" <==> named == -1)
    && (named >= 0 ==> Fires(rules[named], ctx, engine) && rules[named].action.forceProvider == provider)
    && forall j :: named < j < i && Fires(rules[j], ctx, engine) ==> rules[j].action.forceProvider == ""
  }

  lemma NamedInTheEnd(rules: seq<RuleState>, ctx: Ctx, engine: Engine, named: int, provider: string)
    requires NamedSoFar(rules, ctx, engine, |rules|, named, provider)
    ensures Forces(rules, ctx, engine, provider)
  {
    if provider != "" {
      assert LastNamed(rules, ctx, engine, named);
    }
  }

  lemma TimesAssociates(a: real, b: real, c: real)
    ensures Times(Times(a, b), c) == Times(a, Times(b, c))
  {
  }

  /** The multiplier after the rules still to come. */
  function Scaled(m: real, rules: seq<RuleState>, factor: RuleState -> real): real
    decreases |rules|
  {
    if rules == [] then m else Scaled(Times(m, factor(rules[0])), rules[1..], factor)
  }

  lemma {:induction false} ScaledIsProduct(m: real, rules: seq<RuleState>, factor: RuleState -> real)
    ensures Scaled(m, rules, factor) == Times(m, Product(rules, factor))
    decreases |rules|
  {
    if rules != [] {
      ScaledIsProduct(Times(m, factor(rules[0])), rules[1..], factor);
      TimesAssociates(m, factor(rules[0]), Product(rules[1..], factor));
    }
  }

  lemma ScaledStep(m: real, rules: seq<RuleState>, i: nat, factor: RuleState -> real)
    requires i < |rules|
    ensures Scaled(m, rules[i..], factor) == Scaled(Times(m, factor(rules[i])), rules[i + 1..], factor)
  {
    var rest := rules[i..];
    assert rest[0] == rules[i] && rest[1..] == rules[i + 1..];
  }

  /** What the loop has after the first i rules, none of which denied. */
  predicate SoFar(rules: seq<RuleState>, ctx: Ctx, engine: Engine, start: real, i: int, named: int, provider: string, multiplier: real) {
    && 0 <= i <= |rules|
    && (forall j :: 0 <= j < i ==> !(Fires(rules[j], ctx, engine) && rules[j].action.deny))
    && Scaled(multiplier, rules[i..], Factor(ctx, engine)) == Scaled(start, rules, Factor(ctx, engine))
    && NamedSoFar(rules, ctx, engine, i, named, provider)
  }

  lemma SkippedRule(rules: seq<RuleState>, ctx: Ctx, engine: Engine, start: real, i: int, named: int, provider: string, multiplier: real)
    requires SoFar(rules, ctx, engine, start, i, named, provider, multiplier) && i < |rules| && !Fires(rules[i], ctx, engine)
    ensures SoFar(rules, ctx, engine, start, i + 1, named, provider, multiplier)
  {
    ScaledStep(multiplier, rules, i, Factor(ctx, engine));
    assert Times(multiplier, 1.0) == multiplier;
  }

  lemma FiringRule(rules: seq<RuleState>, ctx: Ctx, engine: Engine, start: real, i: int, named: int, provider: string, multiplier: real,
                   named': int, provider': string, multiplier': real)
    requires SoFar(rules, ctx, engine, start, i, named, provider, multiplier) && i < |rules|
    requires Fires(rules[i], ctx, engine) && !rules[i].action.deny
    requires var action := rules[i].action;
      && (named', provider') == (if action.forceProvider != "" then (i, action.forceProvider) else (named, provider))
      && multiplier' == if action.rateMultiplier > 0.0 then multiplier * action.rateMultiplier else multiplier
    ensures SoFar(rules, ctx, engine, start, i + 1, named', provider', multiplier')
  {
    var factor := Factor(ctx, engine);
    ScaledStep(multiplier, rules, i, factor);
    assert Times(multiplier, factor(rules[i])) == multiplier';
  }

  lemma AllRulesDone(rules: seq<RuleState>, ctx: Ctx, engine: Engine, start: real, named: int, provider: string, multiplier: real)
    requires SoFar(rules, ctx, engine, start, |rules|, named, provider, multiplier)
    ensures !Denied(rules, ctx, engine) && Forces(rules, ctx, engine, provider)
    ensures multiplier == start * Product(rules, Factor(ctx, engine))
  {
    assert rules[|rules|..] == [];
    ScaledIsProduct(start, rules, Factor(ctx, engine));
    NamedInTheEnd(rules, ctx, engine, named, provider);
  }

  /**
   The loop: denied exactly when some firing rule denies; otherwise the provider
   is the one the last firing rule with a name gives, and the multiplier is the
   starting value times every firing rule's positive multiplier.
   */
  method ApplyRules(rules: seq<RuleState>, ctx: Ctx, start: real, engine: Engine)
    returns (forceProvider: string, denied: bool, multiplier: real)
    ensures denied <==> Denied(rules, ctx, engine)
    ensures denied ==> forceProvider == ""
    ensures !denied ==> Forces(rules, ctx, engine, forceProvider)
    ensures !denied ==> multiplier == start * Product(rules, Factor(ctx, engine))
  {
    forceProvider, denied, multiplier := "", false, start;
    ghost var named := -1;
    assert rules[0..] == rules;
    for i := 0 to |rules|
      invariant SoFar(rules, ctx, engine, start, i, named, forceProvider, multiplier)
    {
      var rule := rules[i];
      if !rule.enabled {
        SkippedRule(rules, ctx, engine, start, i, named, forceProvider, multiplier);
        continue;
      }
      var verdict := engine(rule.condition, ctx);
      if verdict != Yes {
        SkippedRule(rules, ctx, engine, start, i, named, forceProvider, multiplier);
        continue;
      }
      if rule.action.deny {
        return "", true, multiplier;
      }
      ghost var n, p, m := named, forceProvider, multiplier;
      if rule.action.forceProvider != "" {
        forceProvider := rule.action.forceProvider;
        named := i;
      }
      if rule.action.rateMultiplier > 0.0 {
        multiplier := multiplier * rule.action.rateMultiplier;
      }
      FiringRule(rules, ctx, engine, start, i, n, p, m, named, forceProvider, multiplier);
    }
    AllRulesDone(rules, ctx, engine, start, named, forceProvider, multiplier);
  }

  // ---- Order does not matter to denial and multiplier ----

  /** Reordering the rules changes neither the denial nor the multiplier. */
  lemma OrderDoesNotMatter(rules: seq<RuleState>, reordered: seq<RuleState>, ctx: Ctx, engine: Engine)
    requires multiset(rules) == multiset(reordered)
    ensures Denied(rules, ctx, engine) <==> Denied(reordered, ctx, engine)
    ensures Product(rules, Factor(ctx, engine)) == Product(reordered, Factor(ctx, engine))
  {
    DeniedMembers(rules, reordered, ctx, engine);
    DeniedMembers(reordered, rules, ctx, engine);
    ProductPermuted(rules, reordered, Factor(ctx, engine));
  }

  lemma DeniedMembers(rules: seq<RuleState>, reordered: seq<RuleState>, ctx: Ctx, engine: Engine)
    requires multiset(rules) == multiset(reordered)
    ensures Denied(rules, ctx, engine) ==> Denied(reordered, ctx, engine)
  {
    if Denied(rules, ctx, engine) {
      var i :| 0 <= i < |rules| && Fires(rules[i], ctx, engine) && rules[i].action.deny;
      assert rules[i] in multiset(reordered);
    }
  }
}
