/**
 Rules seeded from the configuration: the rows the seeding writes, what a
 snapshot makes of them, and which part of the configuration that still is.

 A rule's action is stored with the field names Go gives a struct without JSON
 tags, and read with other names.  The text of a JSON object is left to the JSON
 library; which fields a reader takes from it is modelled here.
 */
module Seeding {
  import opened Base
  import opened Conditions
  import opened Import
  import opened Rules
  import opened SnapshotView
  import opened Sorting
  import opened Sums
  import opened Tables

  /** A routing rule of the configuration. */
  datatype RoutingRule = RoutingRule(name: string, on: Match, action: RuleAction)

  // ---- The stored action ----

  datatype JsonValue = Text(text: string) | Flag(flag: bool) | Number(number: real)

  /** The fields of a JSON object, in their order. */
  type Fields = seq<(string, JsonValue)>

  /** The JSON library: an object's text, and the fields of a text that is one. */
  datatype Json = Json(write: Fields -> string, read: string -> Option<Fields>)

  /** json.Marshal of the configuration's RuleAction, whose fields have no JSON names of their own. */
  function ActionFields(a: RuleAction): Fields {
    [("ForceProvider", Text(a.forceProvider)), ("Deny", Flag(a.deny)), ("RateMultiplier", Number(a.rateMultiplier))]
  }

  function Lower(c: char): char {
    if 'A' <= c <= 'Z' then (c as int + 32) as char else c
  }

  /** The names are equal but for the case of their letters. */
  predicate SameName(a: string, b: string) {
    |a| == |b| && forall i :: 0 <= i < |a| ==> Lower(a[i]) == Lower(b[i])
  }

  /** One field read into the snapshot's ruleAction: unknown names are skipped, a value of the wrong sort is an error. */
  function ReadField(a: RuleAction, name: string, v: JsonValue): Option<RuleAction> {
    if SameName(name, "force_provider") then (if v.Text? then Some(a.(forceProvider := v.text)) else None)
    else if SameName(name, "deny") then (if v.Flag? then Some(a.(deny := v.flag)) else None)
    else if SameName(name, "rate_multiplier") then (if v.Number? then Some(a.(rateMultiplier := v.number)) else None)
    else Some(a)
  }

  function ReadAction(fields: Fields): Option<RuleAction> {
    if fields == [] then Some(RuleAction("", false, 0.0))
    else
      var last := fields[|fields| - 1];
      match ReadAction(fields[..|fields| - 1])
      case None => None
      case Some(a) => ReadField(a, last.0, last.1)
  }

  /** json.Unmarshal into the snapshot's ruleAction. */
  function DecodeWith(json: Json): Decoder {
    (text: string) => match json.read(text) case None => None case Some(fields) => ReadAction(fields)
  }

  /** The library reads back the fields it wrote for this action. */
  predicate ReadsBack(json: Json, a: RuleAction) {
    json.read(json.write(ActionFields(a))) == Some(ActionFields(a))
  }

  /** What is left of an action: the names of the other two fields differ by more than case. */
  function Stored(a: RuleAction): RuleAction { RuleAction("", a.deny, 0.0) }

  /** Of the three stored names, only that of `deny` is read. */
  lemma NamesRead()
    ensures SameName("Deny", "deny") && !SameName("Deny", "force_provider")
    ensures !SameName("ForceProvider", "force_provider") && !SameName("ForceProvider", "deny") && !SameName("ForceProvider", "rate_multiplier")
    ensures !SameName("RateMultiplier", "force_provider") && !SameName("RateMultiplier", "deny") && !SameName("RateMultiplier", "rate_multiplier")
  {
    var stored, read := "Deny", "deny";
    assert stored[0] == 'D' && stored[1] == read[1] && stored[2] == read[2] && stored[3] == read[3];
    assert "RateMultiplier"[0] == 'R' && "force_provider"[0] == 'f';
  }

  lemma ReadAfterWrite(a: RuleAction)
    ensures ReadAction(ActionFields(a)) == Some(Stored(a))
  {
    var fields := ActionFields(a);
    var one, two := [fields[0]], [fields[0], fields[1]];
    NamesRead();
    assert fields[..2] == two && two[..1] == one && one[..0] == [];
    assert ReadAction(one) == Some(RuleAction("", false, 0.0));
    assert ReadAction(two) == Some(Stored(a));
  }

  /** An action survives being stored exactly when it names no provider and has no multiplier. */
  lemma ActionSurvivesExactly(json: Json, a: RuleAction)
    requires ReadsBack(json, a)
    ensures DecodeWith(json)(json.write(ActionFields(a))) == Some(Stored(a))
    ensures DecodeWith(json)(json.write(ActionFields(a))) == Some(a) <==> a.forceProvider == "" && a.rateMultiplier == 0.0
  {
    ReadAfterWrite(a);
  }

  // ---- The rows ----

  predicate SevenBitRules(config: seq<RoutingRule>) {
    forall i :: 0 <= i < |config| ==> SevenBit(config[i].on)
  }

  function SeededRow(r: RoutingRule, json: Json, id: int, priority: int): Rule
    requires SevenBit(r.on)
  {
    Rule(id, r.name, priority, true, ConditionText(r.on), json.write(ActionFields(r.action)))
  }

  /** The rows of the configuration's rules: priorities by position, from one. */
  function SeededRows(config: seq<RoutingRule>, json: Json, firstId: int): (rows: seq<Rule>)
    requires SevenBitRules(config)
    ensures |rows| == |config|
    ensures forall i :: 0 <= i < |config| ==> rows[i] == SeededRow(config[i], json, firstId + i, i + 1)
  {
    seq(|config|, i requires 0 <= i < |config| => SeededRow(config[i], json, firstId + i, i + 1))
  }

  // ---- What the snapshot shows ----

  /** The snapshot's rules are the configuration's, in its order, with what is left of their actions. */
  predicate SeededFrom(rules: seq<RuleState>, config: seq<RoutingRule>) {
    && |rules| == |config| && SevenBitRules(config)
    && forall i :: 0 <= i < |rules| ==>
         && rules[i].name == config[i].name
         && rules[i].enabled
         && rules[i].condition == ConditionText(config[i].on)
         && rules[i].action == Stored(config[i].action)
  }

  lemma {:induction false} KeepAll<T>(s: seq<T>)
    ensures Filter(s, (x: T) => true) == s
  {
    if s != [] {
      KeepAll(s[1..]);
    }
  }

  lemma ListedAsSeeded(config: seq<RoutingRule>, json: Json, firstId: int)
    requires SevenBitRules(config)
    ensures var rows := SeededRows(config, json, firstId); ListRules(rows) == rows
  {
    var rows := SeededRows(config, json, firstId);
    var all := (r: Rule) => true;
    SortKeepsGroup(rows, all, RuleBefore);
    KeepAll(rows);
    KeepAll(ListRules(rows));
  }

  /** The row is the configured rule's, its condition printed and its action stored. */
  predicate RowOf(row: Rule, r: RoutingRule, decode: Decoder) {
    && SevenBit(r.on) && row.name == r.name && row.enabled && row.conditionJS == ConditionText(r.on)
    && decode(row.actionJSON) == Some(Stored(r.action))
  }

  lemma OneMoreSeeded(rules: seq<RuleState>, config: seq<RoutingRule>, row: Rule, r: RoutingRule, decode: Decoder)
    requires SeededFrom(rules, config) && RowOf(row, r, decode)
    ensures SeededFrom(rules + [RuleView(row, decode)], config + [r])
  {
  }

  lemma {:induction false} ViewsOfSeeded(rows: seq<Rule>, config: seq<RoutingRule>, decode: Decoder)
    requires |rows| == |config| && forall i :: 0 <= i < |rows| ==> RowOf(rows[i], config[i], decode)
    ensures SeededFrom(RuleViews(rows, decode), config)
  {
    if rows != [] {
      var n := |rows| - 1;
      ViewsOfSeeded(rows[..n], config[..n], decode);
      OneMoreSeeded(RuleViews(rows[..n], decode), config[..n], rows[n], config[n], decode);
      assert config[..n] + [config[n]] == config;
    }
  }

  /** A snapshot of tables freshly seeded shows the configuration's rules, in its order. */
  lemma SeededSnapshot(db: Database, config: seq<RoutingRule>, json: Json, firstId: int)
    requires SevenBitRules(config) && db.rules == SeededRows(config, json, firstId)
    requires forall i :: 0 <= i < |config| ==> ReadsBack(json, config[i].action)
    ensures SeededFrom(View(ListingsOf(db), DecodeWith(json)).rules, config)
  {
    ListedAsSeeded(config, json, firstId);
    forall i | 0 <= i < |config| ensures RowOf(db.rules[i], config[i], DecodeWith(json)) {
      ActionSurvivesExactly(json, config[i].action);
    }
    ViewsOfSeeded(db.rules, config, DecodeWith(json));
  }

  // ---- A library that reads back a configuration's actions ----

  /** Where the object stands among those of the actions; one past them when it does not. */
  function Position(actions: seq<RuleAction>, fields: Fields): nat {
    if actions == [] || ActionFields(actions[0]) == fields then 0 else 1 + Position(actions[1..], fields)
  }

  lemma {:induction false} PositionFinds(actions: seq<RuleAction>, a: RuleAction)
    requires a in actions
    ensures var k := Position(actions, ActionFields(a)); k < |actions| && ActionFields(actions[k]) == ActionFields(a)
  {
    if ActionFields(actions[0]) != ActionFields(a) {
      PositionFinds(actions[1..], a);
    }
  }

  /** Writes an action's object as its position, in strokes. */
  function Strokes(actions: seq<RuleAction>): Json {
    Json((fields: Fields) => seq(Position(actions, fields), i => '|'),
         (text: string) => if |text| < |actions| then Some(ActionFields(actions[|text|])) else None)
  }

  /** For any finite configuration some library reads back all its actions, so what asks for one is about every configuration. */
  lemma StrokesReadBack(actions: seq<RuleAction>)
    ensures forall a :: a in actions ==> ReadsBack(Strokes(actions), a)
  {
    forall a | a in actions ensures ReadsBack(Strokes(actions), a) {
      PositionFinds(actions, a);
    }
  }

  // ---- What the seeded rules do ----

  ghost predicate FiresAsConfigured(rule: RuleState, on: Match) {
    forall ctx: Ctx :: Fires(rule, ctx, EvalText) <==> Matches(on, ctx)
  }

  /** A seeded rule fires on the requests its match names exactly when the prefix holds no BEL. */
  lemma SeededRuleFiresExactly(rules: seq<RuleState>, config: seq<RoutingRule>, i: nat)
    requires SeededFrom(rules, config) && i < |rules|
    ensures FiresAsConfigured(rules[i], config[i].on) <==> BEL !in config[i].on.modelPrefix
  {
    var on := config[i].on;
    FaithfulExactlyWithoutBel(on);
    if FiresAsConfigured(rules[i], on) {
      forall ctx: Ctx ensures EvalText(ConditionText(on), ctx) == if Matches(on, ctx) then Yes else No {
        assert Fires(rules[i], ctx, EvalText) <==> Matches(on, ctx);
        ConditionTextDecides(on, ctx);
      }
    }
  }

  /** With every prefix free of BEL, seeded rules deny exactly the requests a denying match names. */
  lemma SeededRulesDeny(rules: seq<RuleState>, config: seq<RoutingRule>, ctx: Ctx)
    requires SeededFrom(rules, config)
    requires forall i :: 0 <= i < |config| ==> BEL !in config[i].on.modelPrefix
    ensures Denied(rules, ctx, EvalText) <==> exists i :: 0 <= i < |config| && Matches(config[i].on, ctx) && config[i].action.deny
  {
    forall i | 0 <= i < |rules| ensures Fires(rules[i], ctx, EvalText) <==> Matches(config[i].on, ctx) {
      SeededRuleFiresExactly(rules, config, i);
    }
  }

  /** The configuration's i-th rule matches and names a provider, and no later one does both. */
  predicate LastMatchNames(config: seq<RoutingRule>, ctx: Ctx, i: int) {
    && 0 <= i < |config|
    && Matches(config[i].on, ctx) && config[i].action.forceProvider != ""
    && forall j :: i < j < |config| && Matches(config[j].on, ctx) ==> config[j].action.forceProvider == ""
  }

  /** The provider the configuration forces on a request. */
  ghost predicate ConfigForces(config: seq<RoutingRule>, ctx: Ctx, provider: string) {
    if provider == "" then
      forall j :: 0 <= j < |config| && Matches(config[j].on, ctx) ==> config[j].action.forceProvider == ""
    else
      exists i :: LastMatchNames(config, ctx, i) && config[i].action.forceProvider == provider
  }

  /** A request the match names. */
  function Witness(on: Match): (ctx: Ctx)
    ensures Matches(on, ctx)
  {
    Ctx(if on.apiKeys == [] then "" else on.apiKeys[0], on.modelPrefix, "")
  }

  ghost predicate ForcesAsConfigured(rules: seq<RuleState>, config: seq<RoutingRule>) {
    forall ctx: Ctx, provider :: Forces(rules, ctx, EvalText, provider) <==> ConfigForces(config, ctx, provider)
  }

  /** Seeded rules force no provider at all, so they force what the configuration does exactly when it names none. */
  lemma ForcingSurvivesExactly(rules: seq<RuleState>, config: seq<RoutingRule>)
    requires SeededFrom(rules, config)
    ensures forall ctx: Ctx :: Forces(rules, ctx, EvalText, "")
    ensures ForcesAsConfigured(rules, config) <==> forall i :: 0 <= i < |config| ==> config[i].action.forceProvider == ""
  {
    if i :| 0 <= i < |config| && config[i].action.forceProvider != "" {
      var ctx := Witness(config[i].on);
      assert Forces(rules, ctx, EvalText, "") && !ConfigForces(config, ctx, "");
    }
  }

  /** What the configuration's rule contributes to the multiplier of a request. */
  function ConfigFactor(ctx: Ctx): RoutingRule -> real {
    (r: RoutingRule) => if Matches(r.on, ctx) && r.action.rateMultiplier > 0.0 then r.action.rateMultiplier else 1.0
  }

  ghost predicate ScalesAsConfigured(rule: RuleState, r: RoutingRule) {
    forall ctx: Ctx :: Factor(ctx, EvalText)(rule) == ConfigFactor(ctx)(r)
  }

  /** A seeded rule scales nothing, so it scales what its configuration does exactly when that scales nothing. */
  lemma ScalingSurvivesExactly(rules: seq<RuleState>, config: seq<RoutingRule>, i: nat)
    requires SeededFrom(rules, config) && i < |rules|
    ensures forall ctx: Ctx :: Factor(ctx, EvalText)(rules[i]) == 1.0
    ensures ScalesAsConfigured(rules[i], config[i]) <==> config[i].action.rateMultiplier <= 0.0 || config[i].action.rateMultiplier == 1.0
  {
    var ctx := Witness(config[i].on);
    assert Factor(ctx, EvalText)(rules[i]) == 1.0;
    assert ScalesAsConfigured(rules[i], config[i]) ==> ConfigFactor(ctx)(config[i]) == 1.0;
  }

  lemma {:induction false} ProductOfOnes<T>(s: seq<T>, factor: T -> real)
    requires forall x :: x in s ==> factor(x) == 1.0
    ensures Product(s, factor) == 1.0
  {
    if s != [] {
      ProductOfOnes(s[1..], factor);
    }
  }

  lemma TimesAtLeast(a: real, b: real)
    requires a >= 1.0 && b >= 1.0
    ensures Times(a, b) >= a && Times(a, b) >= b
  {
    assert (a - 1.0) * b >= 0.0 && a * (b - 1.0) >= 0.0;
  }

  lemma {:induction false} ProductAtLeast<T>(s: seq<T>, factor: T -> real)
    requires forall x :: x in s ==> factor(x) >= 1.0
    ensures Product(s, factor) >= 1.0
    ensures forall x :: x in s ==> Product(s, factor) >= factor(x)
  {
    if s != [] {
      ProductAtLeast(s[1..], factor);
      TimesAtLeast(factor(s[0]), Product(s[1..], factor));
    }
  }

  /** The whole multiplier of every request is the configuration's. */
  ghost predicate AllScaleAsConfigured(rules: seq<RuleState>, config: seq<RoutingRule>) {
    forall ctx: Ctx :: Product(rules, Factor(ctx, EvalText)) == Product(config, ConfigFactor(ctx))
  }

  lemma SeededRulesScaleNothing(rules: seq<RuleState>, config: seq<RoutingRule>, ctx: Ctx)
    requires SeededFrom(rules, config)
    ensures Product(rules, Factor(ctx, EvalText)) == 1.0
  {
    ProductOfOnes(rules, Factor(ctx, EvalText));
  }

  /** With no multiplier that lowers, the whole multiplier survives exactly when no rule has one above one. */
  lemma WholeScalingSurvivesExactly(rules: seq<RuleState>, config: seq<RoutingRule>)
    requires SeededFrom(rules, config)
    requires forall i :: 0 <= i < |config| ==> !(0.0 < config[i].action.rateMultiplier < 1.0)
    ensures AllScaleAsConfigured(rules, config) <==> forall i :: 0 <= i < |config| ==> config[i].action.rateMultiplier <= 1.0
  {
    if i :| 0 <= i < |config| && config[i].action.rateMultiplier > 1.0 {
      var ctx := Witness(config[i].on);
      SeededRulesScaleNothing(rules, config, ctx);
      ProductAtLeast(config, ConfigFactor(ctx));
      assert config[i] in config && ConfigFactor(ctx)(config[i]) > 1.0;
      assert Product(rules, Factor(ctx, EvalText)) != Product(config, ConfigFactor(ctx));
    } else {
      forall ctx: Ctx ensures Product(rules, Factor(ctx, EvalText)) == Product(config, ConfigFactor(ctx)) {
        SeededRulesScaleNothing(rules, config, ctx);
        ProductOfOnes(config, ConfigFactor(ctx));
      }
    }
  }

  /** Multipliers that lower may cancel others: two and a half on one match together scale nothing either. */
  lemma CancellingMultipliers(rules: seq<RuleState>, on: Match)
    requires SevenBit(on)
    requires SeededFrom(rules, [RoutingRule("a", on, RuleAction("", false, 2.0)), RoutingRule("b", on, RuleAction("", false, 0.5))])
    ensures AllScaleAsConfigured(rules, [RoutingRule("a", on, RuleAction("", false, 2.0)), RoutingRule("b", on, RuleAction("", false, 0.5))])
  {
    var first, second := RoutingRule("a", on, RuleAction("", false, 2.0)), RoutingRule("b", on, RuleAction("", false, 0.5));
    var config := [first, second];
    forall ctx: Ctx ensures Product(rules, Factor(ctx, EvalText)) == Product(config, ConfigFactor(ctx)) {
      SeededRulesScaleNothing(rules, config, ctx);
      assert config[1..] == [second] && [second][1..] == [];
      assert Product([second], ConfigFactor(ctx)) == Times(ConfigFactor(ctx)(second), 1.0) == ConfigFactor(ctx)(second);
      assert Product(config, ConfigFactor(ctx)) == Times(ConfigFactor(ctx)(first), ConfigFactor(ctx)(second));
    }
  }

  // ---- The insertion ----

  /** No name is taken, in the table or in the configuration itself. */
  predicate NamesFree(table: seq<Rule>, config: seq<RoutingRule>) {
    && (forall i :: 0 <= i < |config| ==> !HasName(table, config[i].name))
    && forall i, j :: 0 <= i < j < |config| ==> config[i].name != config[j].name
  }
}
