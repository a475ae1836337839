/**
 How a request served alone ends, written on the rows of the tables it starts with and
 on what it meets from outside: the handler's gates as a maintainer would list them.
 */
module Verdict {
  import opened Base
  import opened Billing
  import opened ByRows
  import opened Clock
  import opened Conditions
  import opened Gateway
  import opened Handler
  import opened Limiter
  import opened Prices
  import opened Rules
  import opened SnapshotView
  import opened Sums
  import opened Tables
  import Import
  import Selection
  import Settlement

  /** A request that has just arrived, over the published snapshot of the tables. */
  predicate Arriving(c: Config, s: Shared, th0: Thread) {
    th0 == NewRequest(th0.token, th0.model, th0.path, th0.bodyTokens) && Published(c, s, s.db)
  }

  function ContextOf(th0: Thread): Ctx { Ctx(th0.token, th0.model, th0.path) }

  /** The body's tokens times the key row's multiplier and those of the firing rows. */
  function EstimateByRows(c: Config, db: Database, th0: Thread): int
    requires th0.token in db.apiKeys
  {
    EstimateOf(th0.bodyTokens, RowsMultiplier(db, c, ContextOf(th0), db.apiKeys[th0.token].rateMultiplier))
  }

  /** With billing on, the row's balance covers a positive cost of the estimate. */
  predicate Affords(c: Config, w: World, db: Database, th0: Thread)
    requires th0.token in db.apiKeys
  {
    var cost := EstimateByRows(c, db, th0) * FirstPrice(w.firstPrices, th0.model, c.defaultPrice) / 1_000_000;
    c.billing && cost > 0 ==> db.apiKeys[th0.token].balanceMicros >= cost
  }

  /** The gates before the user limiter: the tenant, the key's row, the rule rows, the balance. */
  predicate Welcome(c: Config, w: World, db: Database, th0: Thread) {
    w.tenantEnabled && Entitled(db, th0.token, th0.model) && !RowsDeny(db, c, ContextOf(th0)) && Affords(c, w, db, th0)
  }

  /** The user limiter lets the key's call through. */
  predicate UserPasses(c: Config, w: World, s: Shared, th0: Thread)
    requires th0.token in s.db.apiKeys
  {
    Admits(s.users, CallOfKey(s.db.apiKeys[th0.token], EstimateByRows(c, s.db, th0), w.userClock))
  }

  /** The request has the columns of these two rows, the forced provider's if there is one. */
  ghost predicate Took(w: World, db: Database, forced: string, th0: Thread, th: Thread, name: string, pk: ProviderKey) {
    && Chosen(th) && FromRows(db, name, th0.model, w.selectClock, th.provider.value, th.key.value, pk)
    && (forced != "" ==> name == forced)
  }

  ghost predicate TookSome(w: World, db: Database, forced: string, th0: Thread, th: Thread) {
    exists name, pk :: Took(w, db, forced, th0, th, name, pk)
  }

  /** The channel limiter lets through the call of the rows the request took. */
  ghost predicate ChannelPasses(c: Config, w: World, s: Shared, forced: string, th0: Thread, th: Thread)
    requires th0.token in s.db.apiKeys
  {
    exists name, pk :: Took(w, s.db, forced, th0, th, name, pk)
      && Admits(s.channels, CallOfChannel(s.db.providers[name], pk, EstimateByRows(c, s.db, th0), w.channelClock, w.scale))
  }

  /** Welcome, let through by the user limiter, and with some provider that can serve the model. */
  ghost predicate Routable(c: Config, w: World, s: Shared, forced: string, th0: Thread) {
    Welcome(c, w, s.db, th0) && UserPasses(c, w, s, th0) && SomeServes(s.db, forced, th0.model, w.selectClock)
  }

  /** The request gets rows to serve it exactly as it should, and ends as the last gate and the upstream's reply decide. */
  ghost predicate Judged(c: Config, w: World, s: Shared, forced: string, th0: Thread, th: Thread) {
    && RowsForce(s.db, c, ContextOf(th0), forced)
    && (Routable(c, w, s, forced, th0) ==> TookSome(w, s.db, forced, th0, th) && th.estimate == EstimateByRows(c, s.db, th0))
    && th.phase == Finished(if !(Routable(c, w, s, forced, th0) && ChannelPasses(c, w, s, forced, th0, th)) then Rejected
                            else if w.reply.Failure? then Failed else Served)
  }

  // ---- Up to the user limiter ----

  /** The account is the row's, and the estimate and the forced provider are the rows'. */
  ghost predicate AskedByRows(c: Config, db: Database, th0: Thread, asked: Thread) {
    && th0.token in db.apiKeys && asked.token == th0.token && asked.model == th0.model
    && asked.account.Some? && AccountIs(asked.account.value, db.apiKeys[th0.token])
    && RowsForce(db, c, ContextOf(th0), asked.forced)
    && asked.estimate == EstimateByRows(c, db, th0)
  }

  /** Authentication and the rules, by the rows. */
  lemma RuledByRows(c: Config, w: World, s: Shared, th0: Thread)
    requires Arriving(c, s, th0)
    ensures var known := AfterAuthenticate(s, th0, InputAt(w, Authenticate, None));
            var ruled := AfterRules(c, s, known);
            if !(w.tenantEnabled && Entitled(s.db, th0.token, th0.model)) then known.phase.Finished?
            else known.phase.RuleLoop? && if RowsDeny(s.db, c, ContextOf(th0)) then ruled.phase.Finished?
            else ruled.phase.Estimate? && AskedByRows(c, s.db, th0, ruled)
  {
    KeyByRows(c, s, s.db, th0, InputAt(w, Authenticate, None));
    RulesByRows(c, s, s.db, AfterAuthenticate(s, th0, InputAt(w, Authenticate, None)));
  }

  /** The estimate and the balance, by the rows. */
  lemma AffordsByRows(c: Config, w: World, s: Shared, th0: Thread, ruled: Thread)
    requires AskedByRows(c, s.db, th0, ruled)
    ensures var priced := AfterEstimate(c, ruled, InputAt(w, Estimate, None));
            if priced.phase.CheckBalance? then Affords(c, w, s.db, th0) <==> CanDeduct(s.db, priced.token, priced.phase.cost)
            else priced.phase.UserLimit? && Affords(c, w, s.db, th0)
    ensures AskedByRows(c, s.db, th0, AfterEstimate(c, ruled, InputAt(w, Estimate, None)))
  {
    PositiveCharge(ruled.estimate, FirstPrice(w.firstPrices, ruled.model, c.defaultPrice));
  }

  lemma WelcomeByRows(c: Config, w: World, s: Shared, th0: Thread)
    requires Arriving(c, s, th0)
    ensures var asked := UpToLimiter(c, w, s, th0);
      && (asked.phase.UserLimit? && asked.account.Some? <==> Welcome(c, w, s.db, th0))
      && (Welcome(c, w, s.db, th0) ==> AskedByRows(c, s.db, th0, asked))
  {
    RuledByRows(c, w, s, th0);
    var known := AfterAuthenticate(s, th0, InputAt(w, Authenticate, None));
    var ruled := AfterRules(c, s, known);
    if known.phase.RuleLoop? && ruled.phase.Estimate? {
      AffordsByRows(c, w, s, th0, ruled);
    }
  }

  // ---- The route, and the end ----

  lemma EntersByRows(c: Config, w: World, s: Shared, th0: Thread)
    requires Arriving(c, s, th0)
    ensures Enters(w, s, UpToLimiter(c, w, s, th0)) <==> Welcome(c, w, s.db, th0) && UserPasses(c, w, s, th0)
  {
    var asked := UpToLimiter(c, w, s, th0);
    WelcomeByRows(c, w, s, th0);
    if Welcome(c, w, s.db, th0) {
      assert UserCall(asked, asked.account.value, w.userClock) == CallOfKey(s.db.apiKeys[th0.token], asked.estimate, w.userClock);
    }
  }

  lemma RouteByRows(c: Config, w: World, s: Shared, asked: Thread)
    requires Published(c, s, s.db)
    ensures HasRoute(w, s, asked) <==> SomeServes(s.db, asked.forced, asked.model, w.selectClock)
  {
    forall name ensures Selection.Qualifies(s.snapshot, name, asked.model, w.selectClock) <==> Servable(s.db, name, asked.model, w.selectClock) {
      QualifiesByRows(c, s, s.db, name, asked.model, w.selectClock);
    }
  }

  lemma RoutedTook(c: Config, w: World, s: Shared, th0: Thread, asked: Thread, th: Thread)
    requires Published(c, s, s.db) && AskedByRows(c, s.db, th0, asked) && Routed(w, s, asked, th)
    ensures TookSome(w, s.db, asked.forced, th0, th)
    ensures ChannelPasses(c, w, s, asked.forced, th0, th)
       <==> Admits(s.channels, ChannelCall(th, th.provider.value, th.key.value, w.channelClock, w.scale))
  {
    var name, index: nat :| Offered(s.snapshot, asked, name, index, w.selectClock)
      && th.provider.value == s.snapshot.providers[name] && th.key.value == th.provider.value.keys[index];
    var pk := PairFromRows(c, s, s.db, name, asked.model, w.selectClock, th.key.value);
    assert Took(w, s.db, asked.forced, th0, th, name, pk);
    forall other, row | Took(w, s.db, asked.forced, th0, th, other, row)
      ensures ChannelCall(th, th.provider.value, th.key.value, w.channelClock, w.scale)
           == CallOfChannel(s.db.providers[other], row, th.estimate, w.channelClock, w.scale)
    {
    }
  }

  lemma DecidedIsJudged(c: Config, w: World, s: Shared, th0: Thread, th: Thread)
    requires Arriving(c, s, th0) && Decided(c, w, s, th0, th)
    ensures exists forced :: Judged(c, w, s, forced, th0, th)
  {
    var asked := UpToLimiter(c, w, s, th0);
    WelcomeByRows(c, w, s, th0);
    EntersByRows(c, w, s, th0);
    if Welcome(c, w, s.db, th0) {
      RouteByRows(c, w, s, asked);
      if Enters(w, s, asked) && HasRoute(w, s, asked) {
        RoutedTook(c, w, s, th0, asked, th);
      }
      assert Judged(c, w, s, asked.forced, th0, th);
    } else {
      ListingForces(s.db, c, ContextOf(th0));
      assert Judged(c, w, s, ForcedBy(RuleViews(Import.ListRules(s.db.rules), c.decode), ContextOf(th0), c.engine), th0, th);
    }
  }

  /**
   The verdict on a request served alone, over freshly published tables.  It is
   rejected unless: its tenant and its key's row are enabled and the row allows the
   model; no enabled row of the rules whose condition holds denies it; the row's
   balance covers the cost of the estimate; the user limiter lets the row's call
   through; some provider's rows can serve the model; and the channel limiter lets
   through the call of the rows taken.
   */
  lemma VerdictByRows(c: Config, w: World, from: Local, to: Local)
    requires LeadsTo(c, w, from, to) && Arriving(c, from.shared, from.thread) && to.thread.phase.Finished?
    ensures exists forced :: Judged(c, w, from.shared, forced, from.thread, to.thread)
  {
    WorldDecides(c, w, from, to);
    DecidedIsJudged(c, w, from.shared, from.thread, to.thread);
  }

  /**
   Everything claimed of a request served alone: its steps, its end, what it leaves
   and, over freshly published tables, the verdict by their rows.
   */
  ghost predicate Handled(c: Config, w: World, from: Local, to: Local) {
    && LeadsTo(c, w, from, to)
    && Decided(c, w, from.shared, from.thread, to.thread)
    && Settlement.Leaves(c, w, from.shared, to.shared, to.thread)
    && (Arriving(c, from.shared, from.thread) ==> exists forced :: Judged(c, w, from.shared, forced, from.thread, to.thread))
  }

  lemma EndIsHandled(c: Config, w: World, from: Local, to: Local)
    requires LeadsTo(c, w, from, to) && Arrived(from.thread) && from.thread.charge == 0 && to.thread.phase.Finished?
    ensures Handled(c, w, from, to)
  {
    WorldDecides(c, w, from, to);
    Settlement.EndSettles(c, w, from, to);
    if Arriving(c, from.shared, from.thread) {
      VerdictByRows(c, w, from, to);
    }
  }
}
