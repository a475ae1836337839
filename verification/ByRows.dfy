/**
 The decisions of the handler, written on the rows of the tables: what the published
 snapshot, the rule loop, the selection and the limiters' calls come to, column by column.
 */
module ByRows {
  import opened Base
  import opened Clock
  import opened Conditions
  import opened Gateway
  import opened Import
  import opened Limiter
  import opened Rules
  import opened SnapshotView
  import opened Sorting
  import opened Sums
  import opened Tables
  import Selection

  /** The published snapshot is that of these tables, whose rows stand under their own names. */
  predicate Published(c: Config, s: Shared, db: Database) {
    KeyedByName(ListingsOf(db)) && s.snapshot == View(ListingsOf(db), c.decode)
  }

  // ---- API keys ----

  /** An empty list allows every model. */
  predicate Lists(models: seq<string>, model: string) { |models| == 0 || model in models }

  /** The token is an enabled API key that may use the model. */
  predicate Entitled(db: Database, token: string, model: string) {
    token in db.apiKeys && db.apiKeys[token].enabled && Lists(db.apiKeys[token].allowedModels, model)
  }

  /** The account carries the columns of its row. */
  predicate AccountIs(a: GatewayKey, row: APIKey) {
    && a.key == row.keyValue && a.tenantName == row.tenantName && a.enabled == row.enabled
    && a.balanceMicros == row.balanceMicros && a.maxRPM == row.maxRPM && a.maxTPM == row.maxTPM
    && a.allowedModels == row.allowedModels && a.rateMultiplier == row.rateMultiplier
  }

  /** Authentication lets a request on exactly when its tenant is enabled and its row allows it. */
  lemma KeyByRows(c: Config, s: Shared, db: Database, th: Thread, input: Input)
    requires Published(c, s, db)
    ensures var after := AfterAuthenticate(s, th, input);
            if input.tenantEnabled && Entitled(db, th.token, th.model) then
              && after.phase.RuleLoop? && after.account.Some? && AccountIs(after.account.value, db.apiKeys[th.token])
              && after.account.value.key == th.token && after.multiplier == db.apiKeys[th.token].rateMultiplier
            else after.phase == Finished(Rejected)
  {
  }

  // ---- Rules ----

  /** The row is enabled, its action can be decoded, and its condition evaluates, without error, to true. */
  predicate RowFires(r: Rule, c: Config, ctx: Ctx) {
    r.enabled && c.decode(r.actionJSON).Some? && c.engine(r.conditionJS, ctx) == Yes
  }

  predicate RowDenies(r: Rule, c: Config, ctx: Ctx) {
    RowFires(r, c, ctx) && c.decode(r.actionJSON).value.deny
  }

  /** A firing row with a positive multiplier multiplies by it. */
  function Multiplier(r: Rule, c: Config, ctx: Ctx): real {
    if !RowFires(r, c, ctx) then 1.0
    else
      var m := c.decode(r.actionJSON).value.rateMultiplier;
      if m > 0.0 then m else 1.0
  }

  function RowFactor(c: Config, ctx: Ctx): Rule -> real {
    (r: Rule) => Multiplier(r, c, ctx)
  }

  predicate RowNames(r: Rule, c: Config, ctx: Ctx) {
    RowFires(r, c, ctx) && c.decode(r.actionJSON).value.forceProvider != ""
  }

  predicate RowsDeny(db: Database, c: Config, ctx: Ctx) {
    exists r :: r in db.rules && RowDenies(r, c, ctx)
  }

  /** The provider named by the last firing row that names one, in order of priority, then id. */
  ghost predicate RowsForce(db: Database, c: Config, ctx: Ctx, provider: string) {
    if provider == "" then forall r :: r in db.rules ==> !RowNames(r, c, ctx)
    else
      exists r :: r in db.rules && RowNames(r, c, ctx) && c.decode(r.actionJSON).value.forceProvider == provider
        && forall other :: other in db.rules && RowNames(other, c, ctx) ==>
             other.priority < r.priority || (other.priority == r.priority && other.id <= r.id)
  }

  /** The body's tokens times the account's and the firing rows' multipliers, rounded down, and at least one. */
  function EstimateOf(bodyTokens: nat, multiplier: real): int {
    if bodyTokens as real * multiplier < 1.0 then 1 else (bodyTokens as real * multiplier).Floor
  }

  lemma EstimateIsRounded(bodyTokens: nat, multiplier: real)
    ensures EstimatedTokens(bodyTokens, multiplier) == EstimateOf(bodyTokens, multiplier)
  {
    var x := bodyTokens as real * multiplier;
    assert x < 1.0 <==> x.Floor <= 0;
  }

  predicate DeniedInListing(listed: seq<Rule>, c: Config, ctx: Ctx) {
    exists r :: r in listed && RowDenies(r, c, ctx)
  }

  lemma ViewsDeny(listed: seq<Rule>, c: Config, ctx: Ctx)
    ensures Denied(RuleViews(listed, c.decode), ctx, c.engine) <==> DeniedInListing(listed, c, ctx)
  {
    var views := RuleViews(listed, c.decode);
    RuleViewsMembers(listed, c.decode);
    if Denied(views, ctx, c.engine) {
      var i :| 0 <= i < |views| && Fires(views[i], ctx, c.engine) && views[i].action.deny;
      assert views[i] in views;
      var j :| 0 <= j < |listed| && Runnable(listed[j], c.decode) && views[i] == RuleView(listed[j], c.decode);
      assert RowDenies(listed[j], c, ctx);
    }
    if r :| r in listed && RowDenies(r, c, ctx) {
      assert RuleView(r, c.decode) in views;
    }
  }

  lemma ProductSnoc<T>(s: seq<T>, x: T, factor: T -> real)
    ensures Product(s + [x], factor) == Times(factor(x), Product(s, factor))
  {
    ProductWithout(s + [x], |s|, factor);
    assert Without(s + [x], |s|) == s;
  }

  /** Rows that are not run leave the product alone. */
  lemma {:induction false} ViewsMultiply(listed: seq<Rule>, c: Config, ctx: Ctx)
    ensures Product(RuleViews(listed, c.decode), Factor(ctx, c.engine)) == Product(listed, RowFactor(c, ctx))
  {
    if listed != [] {
      var n := |listed| - 1;
      var before, r := listed[..n], listed[n];
      ViewsMultiply(before, c, ctx);
      assert listed == before + [r];
      ProductSnoc(before, r, RowFactor(c, ctx));
      if Runnable(r, c.decode) {
        ProductSnoc(RuleViews(before, c.decode), RuleView(r, c.decode), Factor(ctx, c.engine));
      } else {
        assert RuleViews(listed, c.decode) == RuleViews(before, c.decode);
        assert !RowFires(r, c, ctx) && RowFactor(c, ctx)(r) == 1.0;
        OneTimes(Product(before, RowFactor(c, ctx)));
      }
    }
  }

  lemma OneTimes(a: real)
    ensures Times(1.0, a) == a
  {
  }

  /** In the listing, the forced provider is that of the last row naming one. */
  predicate NamedLast(listed: seq<Rule>, c: Config, ctx: Ctx, i: nat) {
    i < |listed| && RowNames(listed[i], c, ctx) && forall j :: i < j < |listed| ==> !RowNames(listed[j], c, ctx)
  }

  lemma {:induction false} ViewsForce(listed: seq<Rule>, c: Config, ctx: Ctx)
    ensures var provider := ForcedBy(RuleViews(listed, c.decode), ctx, c.engine);
            if provider == "" then forall i :: 0 <= i < |listed| ==> !RowNames(listed[i], c, ctx)
            else exists i: nat :: NamedLast(listed, c, ctx, i) && c.decode(listed[i].actionJSON).value.forceProvider == provider
  {
    if listed != [] {
      var n := |listed| - 1;
      var before := listed[..n];
      ViewsForce(before, c, ctx);
      if RowNames(listed[n], c, ctx) {
        LastForces(listed, c, ctx);
      } else {
        OthersForce(listed, c, ctx);
        var provider := ForcedBy(RuleViews(before, c.decode), ctx, c.engine);
        if provider != "" {
          var i: nat :| NamedLast(before, c, ctx, i) && c.decode(before[i].actionJSON).value.forceProvider == provider;
          assert NamedLast(listed, c, ctx, i);
        }
      }
    }
  }

  lemma LastForces(listed: seq<Rule>, c: Config, ctx: Ctx)
    requires listed != [] && RowNames(listed[|listed| - 1], c, ctx)
    ensures ForcedBy(RuleViews(listed, c.decode), ctx, c.engine) == c.decode(listed[|listed| - 1].actionJSON).value.forceProvider
    ensures NamedLast(listed, c, ctx, |listed| - 1)
  {
    var views := RuleViews(listed, c.decode);
    assert views[|views| - 1] == RuleView(listed[|listed| - 1], c.decode);
  }

  lemma OthersForce(listed: seq<Rule>, c: Config, ctx: Ctx)
    requires listed != [] && !RowNames(listed[|listed| - 1], c, ctx)
    ensures ForcedBy(RuleViews(listed, c.decode), ctx, c.engine) == ForcedBy(RuleViews(listed[..|listed| - 1], c.decode), ctx, c.engine)
  {
    var n := |listed| - 1;
    var views, before := RuleViews(listed, c.decode), RuleViews(listed[..n], c.decode);
    if Runnable(listed[n], c.decode) {
      assert views[..|views| - 1] == before && views[|views| - 1] == RuleView(listed[n], c.decode);
    } else {
      assert views == before;
    }
  }

  lemma ListingForces(db: Database, c: Config, ctx: Ctx)
    ensures RowsForce(db, c, ctx, ForcedBy(RuleViews(ListRules(db.rules), c.decode), ctx, c.engine))
  {
    var listed := ListRules(db.rules);
    var provider := ForcedBy(RuleViews(listed, c.decode), ctx, c.engine);
    ViewsForce(listed, c, ctx);
    ListingKeepsRows(db.rules);
    SortSorts(db.rules, RuleBefore);
    if provider == "" {
      forall r | r in db.rules ensures !RowNames(r, c, ctx) {
        assert r in listed;
      }
    } else {
      var i: nat :| NamedLast(listed, c, ctx, i) && c.decode(listed[i].actionJSON).value.forceProvider == provider;
      assert listed[i] in db.rules;
      forall other | other in db.rules && RowNames(other, c, ctx)
        ensures other.priority < listed[i].priority || (other.priority == listed[i].priority && other.id <= listed[i].id)
      {
        assert other in listed;
        var j :| 0 <= j < |listed| && listed[j] == other;
        assert j < i ==> RuleBefore(listed[j], listed[i]);
      }
    }
  }

  lemma ListingDenies(db: Database, c: Config, ctx: Ctx)
    ensures Denied(RuleViews(ListRules(db.rules), c.decode), ctx, c.engine) <==> RowsDeny(db, c, ctx)
  {
    ListingKeepsRows(db.rules);
    ViewsDeny(ListRules(db.rules), c, ctx);
  }

  lemma ListingMultiplies(db: Database, c: Config, ctx: Ctx)
    ensures Product(RuleViews(ListRules(db.rules), c.decode), Factor(ctx, c.engine)) == Product(db.rules, RowFactor(c, ctx))
  {
    ViewsMultiply(ListRules(db.rules), c, ctx);
    SortPermutes(db.rules, RuleBefore);
    ProductPermuted(ListRules(db.rules), db.rules, RowFactor(c, ctx));
  }

  /** An account's multiplier times those of the firing rows. */
  function RowsMultiplier(db: Database, c: Config, ctx: Ctx, own: real): real {
    own * Product(db.rules, RowFactor(c, ctx))
  }

  function RulesMultiplier(rules: seq<RuleState>, c: Config, ctx: Ctx, own: real): real {
    own * Product(rules, Factor(ctx, c.engine))
  }

  lemma MultiplierByRows(rules: seq<RuleState>, db: Database, c: Config, ctx: Ctx, own: real)
    requires rules == RuleViews(ListRules(db.rules), c.decode)
    ensures RulesMultiplier(rules, c, ctx, own) == RowsMultiplier(db, c, ctx, own)
  {
    ListingMultiplies(db, c, ctx);
  }

  /** What the rule step leaves, by what the published rules decide. */
  lemma RuleStep(c: Config, s: Shared, th: Thread, ctx: Ctx)
    requires ctx == Ctx(th.token, th.model, th.path)
    ensures var rules, after := s.snapshot.rules, AfterRules(c, s, th);
            if Denied(rules, ctx, c.engine) then after.phase == Finished(Rejected)
            else
              && after.phase.Estimate? && after.forced == ForcedBy(rules, ctx, c.engine) && after.account == th.account
              && after.multiplier == RulesMultiplier(rules, c, ctx, th.multiplier)
              && after.estimate == EstimateOf(th.bodyTokens, after.multiplier)
  {
    EstimateIsRounded(th.bodyTokens, AfterRules(c, s, th).multiplier);
  }

  /**
   The rule step turns a request away exactly when some row denies it, and otherwise
   forces what the rows force and estimates with the product of their multipliers.
   */
  lemma RulesByRows(c: Config, s: Shared, db: Database, th: Thread)
    requires Published(c, s, db)
    ensures var after, ctx := AfterRules(c, s, th), Ctx(th.token, th.model, th.path);
            if RowsDeny(db, c, ctx) then after.phase == Finished(Rejected)
            else
              && after.phase.Estimate? && RowsForce(db, c, ctx, after.forced) && after.account == th.account
              && after.multiplier == RowsMultiplier(db, c, ctx, th.multiplier)
              && after.estimate == EstimateOf(th.bodyTokens, after.multiplier)
  {
    var ctx := Ctx(th.token, th.model, th.path);
    assert s.snapshot.rules == RuleViews(ListRules(db.rules), c.decode);
    ListingDenies(db, c, ctx);
    ListingForces(db, c, ctx);
    MultiplierByRows(s.snapshot.rules, db, c, ctx, th.multiplier);
    RuleStep(c, s, th, ctx);
  }

  // ---- Selection ----

  /** The key row is enabled and its cooldown, a number of Unix seconds, is over. */
  predicate Usable(pk: ProviderKey, name: string, now: Time) {
    pk.providerName == name && pk.enabled && now > (pk.cooldownUntil + 62_135_596_800) * 1_000_000_000
  }

  /** By its rows, the provider of that name can serve the model now. */
  predicate Servable(db: Database, name: string, model: string, now: Time) {
    && name in db.providers && db.providers[name].enabled && Lists(db.providers[name].models, model)
    && exists pk :: pk in db.providerKeys && Usable(pk, name, now)
  }

  predicate ProviderIs(p: ProviderState, row: Provider) {
    && p.name == row.name && p.weight == row.weight && p.models == row.models && p.enabled == row.enabled
    && p.maxRPM == row.maxRPM && p.maxTPM == row.maxTPM && p.groupName == row.groupName
    && p.recoverInterval == (if row.recoverIntervalSec > 1 then row.recoverIntervalSec else 1) * 1_000_000_000
  }

  predicate KeyIs(k: ProviderKeyState, pk: ProviderKey) {
    && k.id == pk.id && k.alias == pk.alias && k.enabled == pk.enabled
    && k.consecutiveErrs == pk.consecutiveErrs && k.lastStatus == pk.lastStatus
    && k.cooldownUntil == (pk.cooldownUntil + 62_135_596_800) * 1_000_000_000
  }

  /** The pair carries the columns of two rows by which the provider can serve the model with that key. */
  ghost predicate FromRows(db: Database, name: string, model: string, now: Time, p: ProviderState, k: ProviderKeyState, pk: ProviderKey) {
    && name in db.providers && db.providers[name].enabled && Lists(db.providers[name].models, model) && ProviderIs(p, db.providers[name])
    && pk in db.providerKeys && Usable(pk, name, now) && KeyIs(k, pk)
  }

  lemma ListedKeys(db: Database)
    ensures forall pk :: pk in ListProviderKeys(db.providerKeys) <==> pk in db.providerKeys
  {
    SortPermutes(db.providerKeys, KeyBefore);
    var listed := ListProviderKeys(db.providerKeys);
    forall pk ensures pk in listed <==> pk in db.providerKeys {
      assert pk in listed <==> pk in multiset(listed);
      assert pk in db.providerKeys <==> pk in multiset(db.providerKeys);
    }
  }

  /** The published keys of a provider are the rows with its name. */
  lemma PublishedKeys(db: Database, name: string, k: ProviderKeyState)
    ensures k in KeyStates(Filter(ListProviderKeys(db.providerKeys), OfProvider(name)))
       <==> exists pk :: pk in db.providerKeys && pk.providerName == name && k == KeyState(pk)
  {
    var listed := ListProviderKeys(db.providerKeys);
    var rows := Filter(listed, OfProvider(name));
    ListedKeys(db);
    FilterMembers(listed, OfProvider(name));
    if pk :| pk in db.providerKeys && pk.providerName == name && k == KeyState(pk) {
      assert pk in rows;
      var i :| 0 <= i < |rows| && rows[i] == pk;
      assert KeyStates(rows)[i] == k;
    }
    if k in KeyStates(rows) {
      var i :| 0 <= i < |rows| && KeyStates(rows)[i] == k;
      assert rows[i] in rows;
    }
  }

  lemma QualifiesByRows(c: Config, s: Shared, db: Database, name: string, model: string, now: Time)
    requires Published(c, s, db)
    ensures Selection.Qualifies(s.snapshot, name, model, now) <==> Servable(db, name, model, now)
  {
    if name in db.providers {
      var p := s.snapshot.providers[name];
      assert p == ProviderView(db.providers[name], ListProviderKeys(db.providerKeys));
      if k :| k in p.keys && Selection.LiveKey(k, now) {
        PublishedKeys(db, name, k);
        var pk :| pk in db.providerKeys && pk.providerName == name && k == KeyState(pk);
        assert Usable(pk, name, now);
      }
      if pk :| pk in db.providerKeys && Usable(pk, name, now) {
        PublishedKeys(db, name, KeyState(pk));
        assert KeyState(pk) in p.keys && Selection.LiveKey(KeyState(pk), now);
      }
    }
  }

  lemma PairFromRows(c: Config, s: Shared, db: Database, name: string, model: string, now: Time, k: ProviderKeyState) returns (pk: ProviderKey)
    requires Published(c, s, db) && Selection.Qualifies(s.snapshot, name, model, now)
    requires k in s.snapshot.providers[name].keys && Selection.LiveKey(k, now)
    ensures FromRows(db, name, model, now, s.snapshot.providers[name], k, pk)
  {
    PublishedKeys(db, name, k);
    pk :| pk in db.providerKeys && pk.providerName == name && k == KeyState(pk);
  }

  /** Some provider can serve the model by its rows: the forced one, or else any. */
  ghost predicate SomeServes(db: Database, forced: string, model: string, now: Time) {
    if forced != "" then Servable(db, forced, model, now) else exists name :: Servable(db, name, model, now)
  }

  /**
   A selection over the published tables succeeds exactly when some provider can serve
   the model by its rows, the forced one if there is one; and what it returns are the
   columns of such a provider's row and of a usable key row of its own.
   */
  lemma SelectionByRows(c: Config, s: Shared, db: Database, sticky: Selection.Sticky, req: Selection.Request, rand: nat -> nat, nanos: nat,
                        outcome: Selection.Outcome, sticky': Selection.Sticky)
    requires Published(c, s, db) && Selection.Selects(s.snapshot, sticky, req, rand, nanos, outcome, sticky')
    ensures outcome.Selected? <==> SomeServes(db, req.forced, req.model, req.now)
    ensures outcome.Selected? ==>
      exists name, pk :: FromRows(db, name, req.model, req.now, outcome.provider, outcome.key, pk) && (req.forced != "" ==> name == req.forced)
  {
    Selection.SelectionSoundAndComplete(s.snapshot, sticky, req, rand, nanos, outcome, sticky');
    forall name ensures Selection.Qualifies(s.snapshot, name, req.model, req.now) <==> Servable(db, name, req.model, req.now) {
      QualifiesByRows(c, s, db, name, req.model, req.now);
    }
    if outcome.Selected? {
      var name :| Selection.Qualifies(s.snapshot, name, req.model, req.now) && outcome.provider == s.snapshot.providers[name]
                  && (req.forced != "" ==> name == req.forced);
      var pk := PairFromRows(c, s, db, name, req.model, req.now, outcome.key);
    }
  }

  function UsableAt(name: string, now: Time): ProviderKey -> bool {
    (pk: ProviderKey) => Usable(pk, name, now)
  }

  /** The live keys published for a provider are its usable rows, in their order. */
  lemma {:induction false} LiveOfTable(table: seq<ProviderKey>, name: string, now: Time)
    ensures Filter(KeyStates(Filter(table, OfProvider(name))), (k: ProviderKeyState) => Selection.LiveKey(k, now))
         == KeyStates(Filter(table, UsableAt(name, now)))
  {
    if table != [] {
      LiveOfTable(table[1..], name, now);
      var rest := Filter(table[1..], OfProvider(name));
      var usable := Filter(table[1..], UsableAt(name, now));
      if table[0].providerName == name {
        var states := KeyStates([table[0]] + rest);
        assert Filter(table, OfProvider(name)) == [table[0]] + rest;
        assert states[0] == KeyState(table[0]) && states[1..] == KeyStates(rest);
        assert KeyStates([table[0]] + usable) == [KeyState(table[0])] + KeyStates(usable);
        assert Usable(table[0], name, now) <==> Selection.LiveKey(KeyState(table[0]), now);
        assert Usable(table[0], name, now) ==> Filter(table, UsableAt(name, now)) == [table[0]] + usable;
        assert !Usable(table[0], name, now) ==> Filter(table, UsableAt(name, now)) == usable;
      } else {
        assert Filter(table, OfProvider(name)) == rest && Filter(table, UsableAt(name, now)) == usable;
      }
    }
  }

  /** The key picked for a draw: counting through the provider's usable rows in the order of their ids. */
  lemma KeyPickByRows(c: Config, s: Shared, db: Database, name: string, now: Time, nanos: nat, k: ProviderKeyState)
    requires Published(c, s, db) && AscendingKeys(db.providerKeys) && name in db.providers
    requires Selection.KeyOf(s.snapshot.providers[name], k, now, nanos)
    ensures var rows := Filter(db.providerKeys, UsableAt(name, now));
            rows != [] && KeyIs(k, rows[nanos % |rows|])
  {
    var p, rows := s.snapshot.providers[name], Filter(db.providerKeys, UsableAt(name, now));
    ViewShowsOwnKeys(db, name, c.decode);
    LiveOfTable(db.providerKeys, name, now);
    assert Selection.LiveKeys(p, now) == KeyStates(rows);
  }

  /** The session is bound to a provider that can serve the model by its rows. */
  predicate BoundToServable(db: Database, sticky: Selection.Sticky, req: Selection.Request) {
    req.session != "" && req.session in sticky && Servable(db, sticky[req.session], req.model, req.now)
  }

  /** The servable providers, each once, in some order. */
  ghost predicate ListsServable(s: Shared, db: Database, items: seq<ProviderState>, names: seq<string>, model: string, now: Time) {
    && |items| == |names|
    && (forall i, j :: 0 <= i < j < |names| ==> names[i] != names[j])
    && (forall name :: name in names <==> Servable(db, name, model, now))
    && (forall i :: 0 <= i < |names| ==> names[i] in s.snapshot.providers && items[i] == s.snapshot.providers[names[i]])
  }

  /** The provider is the one a random draw below the total of their weights picks from the servable ones. */
  ghost predicate DrawnByRows(s: Shared, db: Database, req: Selection.Request, rand: nat -> nat, p: ProviderState) {
    exists items, names ::
      && ListsServable(s, db, items, names, req.model, req.now)
      && rand(Selection.Total(items)) < Selection.Total(items)
      && p == Selection.Pick(items, rand(Selection.Total(items)))
  }

  /**
   An unforced selection returns the provider its session is bound to while that one
   can serve the model by its rows, and otherwise a weighted draw over those that can,
   which the session is then bound to; no other selection changes a binding.
   */
  lemma StickinessByRows(c: Config, s: Shared, db: Database, sticky: Selection.Sticky, req: Selection.Request, rand: nat -> nat, nanos: nat,
                         outcome: Selection.Outcome, sticky': Selection.Sticky)
    requires Published(c, s, db) && Selection.Selects(s.snapshot, sticky, req, rand, nanos, outcome, sticky')
    ensures var drawn := req.forced == "" && outcome.Selected? && !BoundToServable(db, sticky, req);
      && (drawn ==> DrawnByRows(s, db, req, rand, outcome.provider))
      && sticky' == if drawn && req.session != "" then sticky[req.session := outcome.provider.name] else sticky
    ensures req.forced == "" && BoundToServable(db, sticky, req) ==> outcome.Selected? && outcome.provider.name == sticky[req.session]
  {
    forall name ensures Selection.Qualifies(s.snapshot, name, req.model, req.now) <==> Servable(db, name, req.model, req.now) {
      QualifiesByRows(c, s, db, name, req.model, req.now);
    }
    if req.forced == "" && outcome.Selected? && !BoundToServable(db, sticky, req) {
      var items, names :|
        && Selection.ListsCandidates(items, names, s.snapshot, req.model, req.now)
        && items != [] && rand(Selection.Total(items)) < Selection.Total(items)
        && outcome.provider == Selection.Pick(items, rand(Selection.Total(items)));
      assert ListsServable(s, db, items, names, req.model, req.now);
    }
  }

  // ---- The limiters' calls ----

  /** A channel's limit, scaled and rounded down; below one it is no limit. */
  function Scaled(limit: int, scale: real): int {
    if limit as real * scale < 1.0 then 0 else (limit as real * scale).Floor
  }

  function CallOfKey(row: APIKey, estimate: int, now: Time): Call {
    Call(now, "user:" + row.keyValue, 1, estimate, row.maxRPM, row.maxTPM)
  }

  function CallOfChannel(row: Provider, pk: ProviderKey, estimate: int, now: Time, scale: real): Call {
    Call(now, "provider:" + row.name + ":" + pk.alias, 1, estimate, Scaled(row.maxRPM, scale), Scaled(row.maxTPM, scale))
  }

  /** The calls the limiters get carry the rows' limits. */
  lemma CallsByRows(th: Thread, a: GatewayKey, row: APIKey, p: ProviderState, prow: Provider, k: ProviderKeyState, pk: ProviderKey, now: Time, scale: real)
    ensures AccountIs(a, row) ==> UserCall(th, a, now) == CallOfKey(row, th.estimate, now)
    ensures ProviderIs(p, prow) && KeyIs(k, pk) ==> ChannelCall(th, p, k, now, scale) == CallOfChannel(prow, pk, th.estimate, now, scale)
  {
  }
}
