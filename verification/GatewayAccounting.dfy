/** Counting over every interleaving: what the counters, the usage table and the ledger say about the requests. */
module GatewayAccounting {
  import opened Billing
  import opened Gateway
  import opened Sums
  import opened Tables

  // ---- What a thread has done ----

  /** The channel limiter has let the request through. */
  predicate WasAdmitted(th: Thread) {
    match Site(th.phase)
    case Forward => true
    case RecordFailure(_) => true
    case CountFailure => true
    case RecordSuccess => true
    case Settle => true
    case Debit => true
    case AddUsage => true
    case CountSuccess => true
    case CountCharge => true
    case Finished(end) => end.Failed? || end.Served?
    case _ => false
  }

  predicate WasRecorded(th: Thread) {
    match Site(th.phase)
    case CountSuccess => true
    case CountCharge => true
    case Finished(end) => end.Served?
    case _ => false
  }

  predicate CountedOk(th: Thread) {
    Site(th.phase).CountCharge? || Site(th.phase) == Finished(Served)
  }

  predicate CountedError(th: Thread) { Site(th.phase) == Finished(Failed) }

  predicate CountedCharge(th: Thread) { Site(th.phase) == Finished(Served) && th.charge > 0 }

  /** Between the channel limiter and its final counter. */
  predicate Between(th: Thread) { WasAdmitted(th) && !CountedOk(th) && !CountedError(th) }

  /** What is true of one thread at any time. */
  predicate Sound(th: Thread) {
    && ReturnsFromReload(th.phase)
    && (th.phase.Debit? || th.phase.CountCharge? ==> th.charge > 0)
    && (th.debited ==> th.charge > 0 && (WasRecorded(th) || Site(th.phase).AddUsage?))
  }

  function One(b: bool): int { if b then 1 else 0 }

  /** The weights whose sums over the threads the shared counters are. */
  function AdmittedWeight(th: Thread): int { One(WasAdmitted(th)) }
  function OkWeight(th: Thread): int { One(CountedOk(th)) }
  function ErrorWeight(th: Thread): int { One(CountedError(th)) }
  function BetweenWeight(th: Thread): int { One(Between(th)) }
  function ChargeWeight(th: Thread): int { One(CountedCharge(th)) }
  function RecordWeight(th: Thread): int { One(WasRecorded(th)) }
  function DebitWeight(th: Thread): int { One(th.debited) }

  /** The tokens a request's usage row holds, and those it presented to the limiters, for one API key. */
  function RecordedTokens(key: string): Thread -> int {
    (th: Thread) => if WasRecorded(th) && th.token == key then BilledTokens(th) else 0
  }

  function PresentedTokens(key: string): Thread -> int {
    (th: Thread) => if WasRecorded(th) && th.token == key then th.estimate else 0
  }

  function TokensOn(key: string): UsageRecord -> int {
    (u: UsageRecord) => if u.apiKey == key then u.totalTokens else 0
  }

  // ---- One step ----

  lemma MoveKeepsSound(th: Thread, after: Thread)
    requires Sound(th) && Moves(th, after)
    ensures Sound(after)
  {
  }

  /** Each counter moves by what the thread's weight moves by. */
  lemma MoveMovesCounters(stats: Stats, th: Thread, after: Thread)
    requires Sound(th) && Moves(th, after)
    ensures var stats' := NextStats(stats, th);
      && stats'.proxyOk - stats.proxyOk == OkWeight(after) - OkWeight(th)
      && stats'.proxyError - stats.proxyError == ErrorWeight(after) - ErrorWeight(th)
      && stats'.billingCharged - stats.billingCharged == ChargeWeight(after) - ChargeWeight(th)
  {
  }

  lemma MoveMovesAdmitted(th: Thread, after: Thread)
    requires Sound(th) && Moves(th, after)
    ensures AdmittedWeight(after) - AdmittedWeight(th) == One(th.phase.ChannelLimit? && after.phase.Forward?)
  {
  }

  lemma StepMovesAdmitted(c: Config, s: Shared, th: Thread, input: Input)
    ensures NextShared(c, s, th, input).admitted - s.admitted
         == One(th.phase.ChannelLimit? && NextThread(c, s, th, input).phase.Forward?)
  {
  }

  lemma MoveRecords(th: Thread, after: Thread)
    requires Sound(th) && Moves(th, after)
    ensures WasRecorded(after) <==> WasRecorded(th) || (th.phase.AddUsage? && after.phase.CountSuccess?)
    ensures th.phase.AddUsage? ==> !WasRecorded(th)
    ensures WasRecorded(th) || th.phase.AddUsage? ==> BilledTokens(after) == BilledTokens(th) && after.estimate == th.estimate
  {
  }

  /** The usage table grows by the thread's row exactly when the thread becomes recorded. */
  lemma StepMovesUsage(c: Config, s: Shared, th: Thread, input: Input, key: string)
    requires Sound(th)
    ensures var after, usage, usage' := NextThread(c, s, th, input), s.db.usage, NextShared(c, s, th, input).db.usage;
      && |usage'| - |usage| == RecordWeight(after) - RecordWeight(th)
      && Sum(usage', TokensOn(key)) - Sum(usage, TokensOn(key)) == RecordedTokens(key)(after) - RecordedTokens(key)(th)
  {
    StepMoves(c, s, th, input);
    MoveRecords(th, NextThread(c, s, th, input));
    if th.phase.AddUsage? && Chosen(th) {
      SumSnoc(s.db.usage, UsageRow(th), TokensOn(key));
    } else {
      assert NextDatabase(c, s.db, th, input.now).usage == s.db.usage;
    }
  }

  /** A debit row is written exactly when the thread notes a successful deduction. */
  lemma StepMovesDebits(c: Config, s: Shared, th: Thread, input: Input)
    requires Sound(th)
    ensures Debits(NextShared(c, s, th, input).db) - Debits(s.db) == DebitWeight(NextThread(c, s, th, input)) - DebitWeight(th)
  {
    if th.phase.Debit? {
      SumSnoc(s.db.txns, BillingTxn(th.token, -th.charge, "usage", th.model), DebitRow);
    } else {
      StepMoves(c, s, th, input);
      assert NextDatabase(c, s.db, th, input.now).txns == s.db.txns;
    }
  }

  // ---- The invariant ----

  ghost predicate Accounted(start: Shared, s: State) {
    && (forall i :: 0 <= i < |s.threads| ==> Sound(s.threads[i]))
    && s.shared.stats.proxyOk == Sum(s.threads, OkWeight)
    && s.shared.stats.proxyError == Sum(s.threads, ErrorWeight)
    && s.shared.stats.billingCharged == Sum(s.threads, ChargeWeight)
    && s.shared.admitted == Sum(s.threads, AdmittedWeight)
    && |s.shared.db.usage| - |start.db.usage| == Sum(s.threads, RecordWeight)
    && Debits(s.shared.db) - Debits(start.db) == Sum(s.threads, DebitWeight)
  }

  ghost predicate TokensAccounted(start: Shared, s: State, key: string) {
    Sum(s.shared.db.usage, TokensOn(key)) - Sum(start.db.usage, TokensOn(key)) == Sum(s.threads, RecordedTokens(key))
  }

  lemma ArrivalKeeps(start: Shared, s: State, th: Thread, key: string)
    requires Accounted(start, s) && TokensAccounted(start, s, key)
    requires Sound(th) && !WasAdmitted(th) && !th.debited
    ensures Accounted(start, s.(threads := s.threads + [th])) && TokensAccounted(start, s.(threads := s.threads + [th]), key)
  {
    SumSnoc(s.threads, th, OkWeight);
    SumSnoc(s.threads, th, ErrorWeight);
    SumSnoc(s.threads, th, ChargeWeight);
    SumSnoc(s.threads, th, AdmittedWeight);
    SumSnoc(s.threads, th, RecordWeight);
    SumSnoc(s.threads, th, DebitWeight);
    SumSnoc(s.threads, th, RecordedTokens(key));
  }

  lemma StepKeepsAccounts(c: Config, start: Shared, s: State, tid: nat, input: Input, key: string)
    requires Accounted(start, s) && TokensAccounted(start, s, key) && tid < |s.threads|
    ensures Accounted(start, Step(c, s, tid, input)) && TokensAccounted(start, Step(c, s, tid, input), key)
  {
    var th := s.threads[tid];
    if CanStep(c, s.shared, th, input) {
      var th' := NextThread(c, s.shared, th, input);
      StepMoves(c, s.shared, th, input);
      MoveKeepsSound(th, th');
      MoveMovesCounters(s.shared.stats, th, th');
      MoveMovesAdmitted(th, th');
      StepMovesAdmitted(c, s.shared, th, input);
      StepMovesUsage(c, s.shared, th, input, key);
      StepMovesDebits(c, s.shared, th, input);
      SumUpdate(s.threads, tid, th', OkWeight);
      SumUpdate(s.threads, tid, th', ErrorWeight);
      SumUpdate(s.threads, tid, th', ChargeWeight);
      SumUpdate(s.threads, tid, th', AdmittedWeight);
      SumUpdate(s.threads, tid, th', RecordWeight);
      SumUpdate(s.threads, tid, th', DebitWeight);
      SumUpdate(s.threads, tid, th', RecordedTokens(key));
    }
  }

  lemma AdminKeepsAccounts(db: Database, a: Action)
    ensures Administer(db, a).usage == db.usage && Debits(Administer(db, a)) == Debits(db)
  {
    match a
    case AdminTopup(key, amount, reason, ref) =>
      if amount > 0 {
        var after := Topup(db, key, amount, reason, ref);
        assert after.txns == db.txns + [after.txns[|db.txns|]] && after.txns[|db.txns|].deltaMicros == amount;
        SumSnoc(db.txns, after.txns[|db.txns|], DebitRow);
      }
    case _ =>
      assert Administer(db, a).txns == db.txns;
  }

  lemma WriteKeepsAccounts(start: Shared, s: State, db: Database, key: string)
    requires Accounted(start, s) && TokensAccounted(start, s, key)
    requires db.usage == s.shared.db.usage && Debits(db) == Debits(s.shared.db)
    ensures var s' := s.(shared := s.shared.(db := db));
            Accounted(start, s') && TokensAccounted(start, s', key)
  {
  }

  lemma ActionKeepsAccounts(c: Config, start: Shared, s: State, a: Action, key: string)
    requires Accounted(start, s) && TokensAccounted(start, s, key)
    ensures Accounted(start, Next(c, s, a)) && TokensAccounted(start, Next(c, s, a), key)
  {
    match a
    case Arrive(token, model, path, bodyTokens) =>
      ArrivalKeeps(start, s, NewRequest(token, model, path, bodyTokens), key);
    case StartReload =>
      ArrivalKeeps(start, s, NewReload(), key);
    case Advance(tid, input) =>
      if tid < |s.threads| {
        StepKeepsAccounts(c, start, s, tid, input, key);
      }
    case _ =>
      AdminKeepsAccounts(s.shared.db, a);
      WriteKeepsAccounts(start, s, Administer(s.shared.db, a), key);
  }

  lemma {:induction false} EveryStateAccounted(c: Config, states: seq<State>, actions: seq<Action>, key: string)
    requires Trace(c, states, actions) && Fresh(states[0])
    ensures Accounted(states[0].shared, states[|actions|]) && TokensAccounted(states[0].shared, states[|actions|], key)
  {
    if actions != [] {
      var n := |actions| - 1;
      TracePrefix(c, states, actions);
      EveryStateAccounted(c, states[..n + 1], actions[..n], key);
      ActionKeepsAccounts(c, states[0].shared, states[n], actions[n], key);
    }
  }

  // ---- What the counters say ----

  /**
   In every reachable state, channel admissions are the requests counted as
   served, those counted as failed, and those still between the channel limiter
   and their final counter.
   */
  lemma AdmissionsAreAccountedFor(c: Config, states: seq<State>, actions: seq<Action>)
    requires Trace(c, states, actions) && Fresh(states[0])
    ensures var s := states[|actions|];
      s.shared.admitted == s.shared.stats.proxyOk + s.shared.stats.proxyError + Sum(s.threads, BetweenWeight)
  {
    EveryStateAccounted(c, states, actions, "");
    var s := states[|actions|];
    var counted := (th: Thread) => OkWeight(th) + ErrorWeight(th);
    SumOfTwo(s.threads, OkWeight, ErrorWeight, counted);
    SumOfTwo(s.threads, counted, BetweenWeight, AdmittedWeight);
  }

  // ---- Who paid what ----

  /** What a ledger row takes from a key. */
  function TakenFrom(key: string): BillingTxn -> int {
    (t: BillingTxn) => if t.apiKey == key && t.deltaMicros < 0 then -t.deltaMicros else 0
  }

  /** What a request has paid from a key's balance: its own charge, once, if its deduction succeeded. */
  function PaidBy(key: string): Thread -> int {
    (th: Thread) => if th.debited && th.token == key then th.charge else 0
  }

  function Taken(db: Database, key: string): int { Sum(db.txns, TakenFrom(key)) }

  lemma DeductTakes(db: Database, th: Thread, key: string)
    requires th.charge > 0
    ensures Taken(Deduct(db, th.token, th.charge, "usage", th.model), key) - Taken(db, key)
         == if CanDeduct(db, th.token, th.charge) && th.token == key then th.charge else 0
  {
    SumSnoc(db.txns, BillingTxn(th.token, -th.charge, "usage", th.model), TakenFrom(key));
  }

  lemma StepMovesPayments(c: Config, s: Shared, th: Thread, input: Input, key: string)
    requires Sound(th)
    ensures Taken(NextShared(c, s, th, input).db, key) - Taken(s.db, key)
         == PaidBy(key)(NextThread(c, s, th, input)) - PaidBy(key)(th)
  {
    StepMoves(c, s, th, input);
    if th.phase.Debit? {
      DeductTakes(s.db, th, key);
    } else {
      assert NextDatabase(c, s.db, th, input.now).txns == s.db.txns;
    }
  }

  lemma AdminTakesNothing(db: Database, a: Action, key: string)
    ensures Taken(Administer(db, a), key) == Taken(db, key)
  {
    match a
    case AdminTopup(k, amount, reason, ref) =>
      if amount > 0 {
        var after := Topup(db, k, amount, reason, ref);
        assert after.txns == db.txns + [after.txns[|db.txns|]] && after.txns[|db.txns|].deltaMicros == amount;
        SumSnoc(db.txns, after.txns[|db.txns|], TakenFrom(key));
      }
    case _ =>
      assert Administer(db, a).txns == db.txns;
  }

  lemma ActionMovesPayments(c: Config, s: State, a: Action, key: string)
    requires forall i :: 0 <= i < |s.threads| ==> Sound(s.threads[i])
    ensures Taken(Next(c, s, a).shared.db, key) - Taken(s.shared.db, key)
         == Sum(Next(c, s, a).threads, PaidBy(key)) - Sum(s.threads, PaidBy(key))
  {
    match a
    case Arrive(token, model, path, bodyTokens) =>
      SumSnoc(s.threads, NewRequest(token, model, path, bodyTokens), PaidBy(key));
    case StartReload =>
      SumSnoc(s.threads, NewReload(), PaidBy(key));
    case Advance(tid, input) =>
      if tid < |s.threads| && CanStep(c, s.shared, s.threads[tid], input) {
        StepMovesPayments(c, s.shared, s.threads[tid], input, key);
        SumUpdate(s.threads, tid, NextThread(c, s.shared, s.threads[tid], input), PaidBy(key));
      }
    case _ =>
      AdminTakesNothing(s.shared.db, a, key);
  }

  /**
   In every reachable state, what the ledger has taken from a key since the start
   is what its requests have paid: each its own charge, at most once.
   */
  lemma {:induction false} TakenIsPaid(c: Config, states: seq<State>, actions: seq<Action>, key: string)
    requires Trace(c, states, actions) && Fresh(states[0])
    ensures var s := states[|actions|];
            Taken(s.shared.db, key) - Taken(states[0].shared.db, key) == Sum(s.threads, PaidBy(key))
  {
    if actions != [] {
      var n := |actions| - 1;
      TracePrefix(c, states, actions);
      TakenIsPaid(c, states[..n + 1], actions[..n], key);
      EveryStateAccounted(c, states[..n + 1], actions[..n], key);
      ActionMovesPayments(c, states[n], actions[n], key);
    }
  }

  predicate AllFinished(s: State) {
    forall i :: 0 <= i < |s.threads| ==> s.threads[i].phase.Finished?
  }

  /**
   Once every thread has finished: one usage row for each served request; no more
   debits than charges counted, and no more of those than served requests; and
   each key's recorded tokens at least what its served requests presented.
   */
  lemma QuietBooksBalance(c: Config, states: seq<State>, actions: seq<Action>, key: string)
    requires Trace(c, states, actions) && Fresh(states[0])
    requires AllFinished(states[|actions|])
    ensures var start, s := states[0].shared, states[|actions|];
      && |s.shared.db.usage| - |start.db.usage| == s.shared.stats.proxyOk
      && 0 <= Debits(s.shared.db) - Debits(start.db) <= s.shared.stats.billingCharged <= s.shared.stats.proxyOk
      && Sum(s.shared.db.usage, TokensOn(key)) - Sum(start.db.usage, TokensOn(key)) >= Sum(s.threads, PresentedTokens(key))
  {
    EveryStateAccounted(c, states, actions, key);
    var s := states[|actions|];
    forall th | th in s.threads
      ensures RecordWeight(th) == OkWeight(th) && DebitWeight(th) <= ChargeWeight(th) <= OkWeight(th)
    {
      var i :| 0 <= i < |s.threads| && s.threads[i] == th;
      assert Sound(s.threads[i]);
    }
    SumAtMost(s.threads, RecordWeight, OkWeight);
    SumAtMost(s.threads, OkWeight, RecordWeight);
    SumAtMost(s.threads, DebitWeight, ChargeWeight);
    SumAtMost(s.threads, ChargeWeight, OkWeight);
    SumAtMost(s.threads, PresentedTokens(key), RecordedTokens(key));
    SumAtMost(s.threads, (th: Thread) => 0, DebitWeight);
    SumOfZeros(s.threads);
  }

  lemma {:induction false} SumOfZeros(threads: seq<Thread>)
    ensures Sum(threads, (th: Thread) => 0) == 0
  {
    if threads != [] {
      SumOfZeros(threads[1..]);
    }
  }
}
