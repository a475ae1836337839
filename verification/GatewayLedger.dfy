/** Money over every interleaving: no balance below zero, and every balance explained by its ledger. */
module GatewayLedger {
  import opened Billing
  import opened Clock
  import opened Gateway
  import opened Prices
  import opened Tables

  /** An administrator's write that replaces or removes the key's row, balance and all. */
  predicate Overwrites(a: Action, key: string) {
    match a
    case PutAPIKey(row) => row.keyValue == key
    case DropAPIKey(keyValue) => keyValue == key
    case _ => false
  }

  /** The key exists, is not in debt, and its balance is `opening` plus its ledger rows. */
  predicate Solvent(db: Database, key: string, opening: int) {
    key in db.apiKeys && db.apiKeys[key].balanceMicros >= 0 && Opening(db, key) == opening
  }

  lemma AdminKeepsSolvent(db: Database, a: Action, key: string, opening: int)
    requires Solvent(db, key, opening) && !Overwrites(a, key)
    ensures Solvent(Administer(db, a), key, opening)
  {
    match a
    case AdminTopup(k, amount, reason, ref) =>
      TopupConserves(db, k, amount, reason, ref, key);
    case _ =>
  }

  lemma SolventFrame(db: Database, after: Database, key: string, opening: int)
    requires Solvent(db, key, opening) && after.apiKeys == db.apiKeys && after.txns == db.txns
    ensures Solvent(after, key, opening)
  {
  }

  lemma DatabaseKeepsSolvent(c: Config, db: Database, th: Thread, now: Time, key: string, opening: int)
    requires Solvent(db, key, opening)
    ensures Solvent(NextDatabase(c, db, th, now), key, opening)
  {
    if th.phase.Debit? {
      DeductConserves(db, th.token, th.charge, "usage", th.model, key);
    } else {
      SolventFrame(db, NextDatabase(c, db, th, now), key, opening);
    }
  }

  lemma StepKeepsSolvent(c: Config, s: State, a: Action, key: string, opening: int)
    requires Solvent(s.shared.db, key, opening) && !Overwrites(a, key)
    ensures Solvent(Next(c, s, a).shared.db, key, opening)
  {
    match a
    case Arrive(_, _, _, _) =>
    case StartReload =>
    case Advance(tid, input) =>
      if tid < |s.threads| {
        DatabaseKeepsSolvent(c, s.shared.db, s.threads[tid], input.now, key, opening);
      }
    case _ =>
      AdminKeepsSolvent(s.shared.db, a, key, opening);
  }

  /**
   In every reachable state of any interleaving, a key whose row is not replaced
   or deleted keeps a non-negative balance equal to its opening balance plus the
   sum of its ledger rows.
   */
  lemma BalanceIsOpeningPlusLedger(c: Config, states: seq<State>, actions: seq<Action>, key: string)
    requires Trace(c, states, actions)
    requires key in states[0].shared.db.apiKeys && states[0].shared.db.apiKeys[key].balanceMicros >= 0
    requires forall a :: a in actions ==> !Overwrites(a, key)
    ensures var opening, now := Opening(states[0].shared.db, key), states[|actions|].shared.db;
            key in now.apiKeys && now.apiKeys[key].balanceMicros == opening + Ledger(now, key) >= 0
  {
    EveryStateSolvent(c, states, actions, key);
  }

  lemma {:induction false} EveryStateSolvent(c: Config, states: seq<State>, actions: seq<Action>, key: string)
    requires Trace(c, states, actions)
    requires key in states[0].shared.db.apiKeys && states[0].shared.db.apiKeys[key].balanceMicros >= 0
    requires forall a :: a in actions ==> !Overwrites(a, key)
    ensures Solvent(states[|actions|].shared.db, key, Opening(states[0].shared.db, key))
  {
    if actions != [] {
      var n := |actions| - 1;
      TracePrefix(c, states, actions);
      EveryStateSolvent(c, states[..n + 1], actions[..n], key);
      assert actions[n] in actions;
      StepKeepsSolvent(c, states[n], actions[n], key, Opening(states[0].shared.db, key));
    }
  }

  // ---- Charges cover the estimates that were checked ----

  /** The price every admissible answer gives the model. */
  ghost predicate PricedAt(c: Config, rows: seq<PriceRule>, model: string, price: int) {
    forall items :: Listing(items, rows) ==> FirstPrice(items, model, c.defaultPrice) == price
  }

  /** Past the estimate, up to a reply or a failure. */
  predicate Estimated(p: Phase) {
    match Site(p)
    case Authenticate => false
    case RuleLoop => false
    case Estimate => false
    case Finished(end) => end.Served? || end.Failed?
    case _ => true
  }

  /** Past the computation of the charge. */
  predicate Settled(p: Phase) {
    var site := Site(p);
    site.Debit? || site.AddUsage? || site.CountSuccess? || site.CountCharge? || site == Finished(Served)
  }

  /** The thread's checked cost and charge are the ones the price gives. */
  predicate PaysAt(th: Thread, price: int) {
    && ReturnsFromReload(th.phase)
    && (th.phase.Estimate? || Estimated(th.phase) ==> th.estimate >= 1)
    && (Estimated(th.phase) ==> th.checked == Charge(th.estimate, price))
    && (Settled(th.phase) ==> th.charge == Charge(BilledTokens(th), price))
  }

  /** An estimate is had by estimating, a settled charge by settling. */
  lemma MoveEntersPhases(th: Thread, after: Thread)
    requires Moves(th, after) && ReturnsFromReload(th.phase)
    ensures ReturnsFromReload(after.phase)
    ensures Estimated(after.phase) ==> Estimated(th.phase) || th.phase.Estimate?
    ensures after.phase.Estimate? ==> th.phase.RuleLoop?
    ensures th.phase.RuleLoop? ==> !Estimated(after.phase)
    ensures Settled(after.phase) ==> Settled(th.phase) || th.phase.Settle?
    ensures th.phase.Forward? ==> !Settled(after.phase)
  {
  }

  lemma StepKeepsThreadPayment(c: Config, s: Shared, th: Thread, input: Input, price: int)
    requires c.billing && PricedAt(c, s.db.prices, th.model, price)
    requires PaysAt(th, price) && CanStep(c, s, th, input)
    ensures PaysAt(NextThread(c, s, th, input), price)
  {
    StepMoves(c, s, th, input);
    MoveEntersPhases(th, NextThread(c, s, th, input));
    if th.phase.Estimate? || th.phase.Settle? {
      assert FirstPrice(input.priceListing, th.model, c.defaultPrice) == price;
    }
  }

  /** Every thread that asks for the model pays at the price. */
  predicate AllPayAt(threads: seq<Thread>, model: string, price: int) {
    forall i :: 0 <= i < |threads| && threads[i].model == model ==> PaysAt(threads[i], price)
  }

  lemma StepKeepsPayment(c: Config, s: State, a: Action, model: string, price: int)
    requires c.billing && PricedAt(c, s.shared.db.prices, model, price) && AllPayAt(s.threads, model, price)
    ensures AllPayAt(Next(c, s, a).threads, model, price)
  {
    if a.Advance? && a.tid < |s.threads| {
      var th := s.threads[a.tid];
      StepMoves(c, s.shared, th, a.input);
      if th.model == model && CanStep(c, s.shared, th, a.input) {
        StepKeepsThreadPayment(c, s.shared, th, a.input, price);
      }
    }
  }

  lemma StepKeepsPrices(c: Config, s: State, a: Action)
    requires !a.PutPrices?
    ensures Next(c, s, a).shared.db.prices == s.shared.db.prices
  {
  }

  /**
   While the price table stands still and prices a model one way, whatever is
   charged for a request is at least the cost its balance was checked against.
   */
  lemma ChargeCoversCheck(c: Config, states: seq<State>, actions: seq<Action>, model: string, price: int)
    requires Trace(c, states, actions) && Fresh(states[0])
    requires c.billing && price >= 0 && PricedAt(c, states[0].shared.db.prices, model, price)
    requires forall a :: a in actions ==> !a.PutPrices?
    ensures forall th :: th in states[|actions|].threads && th.model == model && Settled(th.phase) ==> th.charge >= th.checked
  {
    EveryThreadPays(c, states, actions, model, price);
    var threads := states[|actions|].threads;
    forall th | th in threads && th.model == model && Settled(th.phase) ensures th.charge >= th.checked {
      var i :| 0 <= i < |threads| && threads[i] == th;
      assert PaysAt(threads[i], price);
      ChargeCoversEstimate(th.estimate, th.total, price);
    }
  }

  lemma {:induction false} EveryThreadPays(c: Config, states: seq<State>, actions: seq<Action>, model: string, price: int)
    requires Trace(c, states, actions) && Fresh(states[0])
    requires c.billing && PricedAt(c, states[0].shared.db.prices, model, price)
    requires forall a :: a in actions ==> !a.PutPrices?
    ensures states[|actions|].shared.db.prices == states[0].shared.db.prices
    ensures AllPayAt(states[|actions|].threads, model, price)
  {
    if actions != [] {
      var n := |actions| - 1;
      TracePrefix(c, states, actions);
      assert forall a :: a in actions[..n] ==> a in actions;
      EveryThreadPays(c, states[..n + 1], actions[..n], model, price);
      assert actions[n] in actions;
      StepKeepsPrices(c, states[n], actions[n]);
      StepKeepsPayment(c, states[n], actions[n], model, price);
    }
  }
}
