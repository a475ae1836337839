/**
 Charges over every interleaving: a request past its debit was charged for the larger
 of its estimate and the reported tokens, and a positive charge was either taken from
 the balance, with its ledger row, or refused because the balance did not cover it.
 */
module GatewayCharges {
  import Billing
  import opened Gateway
  import opened Prices
  import opened Tables

  /** Go's quotient by a million, towards zero. */
  function Micros(amount: int): int { if amount >= 0 then amount / 1_000_000 else -(-amount / 1_000_000) }

  /** The action settles the request's charge, at a price the price table gives. */
  predicate Settles(c: Config, s: State, a: Action, tid: nat, th: Thread) {
    && a.Advance? && a.tid == tid && tid < |s.threads| && s.threads[tid].phase.Settle?
    && if !c.billing then th.charge == 0
       else
         var tokens, price := if th.estimate > th.total then th.estimate else th.total, FirstPrice(a.input.priceListing, th.model, c.defaultPrice);
         Listing(a.input.priceListing, s.shared.db.prices) && th.charge == Micros(tokens * price)
  }

  /** The charge leaves the balance, with one ledger row. */
  predicate Takes(before: Database, after: Database, th: Thread)
    requires th.token in before.apiKeys
  {
    var row := before.apiKeys[th.token];
    && after.apiKeys == before.apiKeys[th.token := row.(balanceMicros := row.balanceMicros - th.charge)]
    && after.txns == before.txns + [BillingTxn(th.token, -th.charge, "usage", th.model)]
  }

  /** The action is the request's debit: taken when the balance covers the charge, and otherwise refused. */
  predicate Collects(s: State, a: Action, after: State, tid: nat, th: Thread) {
    var db := s.shared.db;
    && a.Advance? && a.tid == tid && tid < |s.threads| && s.threads[tid].phase.Debit?
    && if th.token in db.apiKeys && db.apiKeys[th.token].balanceMicros >= th.charge then th.debited && Takes(db, after.shared.db, th)
       else !th.debited && after.shared.db == db
  }

  ghost predicate WasSettled(c: Config, states: seq<State>, actions: seq<Action>, n: nat, tid: nat, th: Thread)
    requires n <= |actions| < |states|
  {
    exists i :: 0 <= i < n && Settles(c, states[i], actions[i], tid, th)
  }

  ghost predicate WasTried(states: seq<State>, actions: seq<Action>, n: nat, tid: nat, th: Thread)
    requires n <= |actions| < |states|
  {
    exists i :: 0 <= i < n && Collects(states[i], actions[i], states[i + 1], tid, th)
  }

  /** The request's debit, if there is one, lies behind it. */
  predicate PastDebit(p: Phase) {
    Site(p).AddUsage? || Site(p).CountSuccess? || Site(p).CountCharge? || p == Finished(Served)
  }

  /** What is true of a request's charge at any time. */
  ghost predicate Charged(c: Config, states: seq<State>, actions: seq<Action>, n: nat, tid: nat, th: Thread)
    requires n <= |actions| < |states|
  {
    && ReturnsFromReload(th.phase)
    && if PastDebit(th.phase) then
         WasSettled(c, states, actions, n, tid, th) && if th.charge > 0 then WasTried(states, actions, n, tid, th) else !th.debited
       else if th.phase.Debit? then WasSettled(c, states, actions, n, tid, th) && th.charge > 0 && !th.debited
       else th.charge == 0 && !th.debited
  }

  predicate SameBill(th: Thread, after: Thread) {
    && after.token == th.token && after.model == th.model && after.estimate == th.estimate
    && after.total == th.total && after.charge == th.charge
  }

  lemma StaysSettled(c: Config, states: seq<State>, actions: seq<Action>, n: nat, tid: nat, th: Thread, after: Thread)
    requires n < |actions| < |states| && WasSettled(c, states, actions, n, tid, th) && SameBill(th, after)
    ensures WasSettled(c, states, actions, n + 1, tid, after)
  {
    var i :| 0 <= i < n && Settles(c, states[i], actions[i], tid, th);
    assert Settles(c, states[i], actions[i], tid, after);
  }

  lemma StaysTried(states: seq<State>, actions: seq<Action>, n: nat, tid: nat, th: Thread, after: Thread)
    requires n < |actions| < |states| && WasTried(states, actions, n, tid, th) && SameBill(th, after) && after.debited == th.debited
    ensures WasTried(states, actions, n + 1, tid, after)
  {
    var i :| 0 <= i < n && Collects(states[i], actions[i], states[i + 1], tid, th);
    assert Collects(states[i], actions[i], states[i + 1], tid, after);
  }

  lemma StepSettles(c: Config, s: State, tid: nat, input: Input)
    requires tid < |s.threads| && s.threads[tid].phase.Settle? && CanStep(c, s.shared, s.threads[tid], input) && s.threads[tid].charge == 0
    ensures Settles(c, s, Advance(tid, input), tid, NextThread(c, s.shared, s.threads[tid], input))
    ensures var after := NextThread(c, s.shared, s.threads[tid], input);
            (after.phase.Debit? && after.charge > 0) || (after.phase.AddUsage? && after.charge <= 0)
  {
    var th := s.threads[tid];
    assert NextThread(c, s.shared, th, input) == AfterSettle(c, th, input);
  }

  lemma StepDebits(c: Config, s: State, tid: nat, input: Input)
    requires tid < |s.threads| && s.threads[tid].phase.Debit? && s.threads[tid].charge > 0
    ensures Collects(s, Advance(tid, input), Step(c, s, tid, input), tid, NextThread(c, s.shared, s.threads[tid], input))
  {
    var th := s.threads[tid];
    assert NextDatabase(c, s.shared.db, th, input.now) == Billing.Deduct(s.shared.db, th.token, th.charge, "usage", th.model);
  }

  /** A step other than these two neither charges nor debits. */
  lemma OtherStepKeepsCharge(c: Config, states: seq<State>, actions: seq<Action>, n: nat, tid: nat, th: Thread, after: Thread)
    requires n < |actions| < |states| && Charged(c, states, actions, n, tid, th)
    requires !th.phase.Settle? && !th.phase.Debit? && (th == after || Moves(th, after))
    ensures Charged(c, states, actions, n + 1, tid, after)
  {
    if PastDebit(th.phase) {
      assert PastDebit(after.phase);
      StaysSettled(c, states, actions, n, tid, th, after);
      if th.charge > 0 {
        StaysTried(states, actions, n, tid, th, after);
      }
    }
  }

  /** The request's own action, which it can take. */
  predicate Own(c: Config, s: State, a: Action, tid: nat) {
    a.Advance? && a.tid == tid && tid < |s.threads| && CanStep(c, s.shared, s.threads[tid], a.input)
  }

  lemma SettleStepCharges(c: Config, states: seq<State>, actions: seq<Action>, n: nat, tid: nat)
    requires n < |actions| < |states| && Own(c, states[n], actions[n], tid) && states[n].threads[tid].phase.Settle?
    requires Charged(c, states, actions, n, tid, states[n].threads[tid])
    ensures Charged(c, states, actions, n + 1, tid, NextThread(c, states[n].shared, states[n].threads[tid], actions[n].input))
  {
    StepSettles(c, states[n], tid, actions[n].input);
    StepMoves(c, states[n].shared, states[n].threads[tid], actions[n].input);
    assert Settles(c, states[n], actions[n], tid, NextThread(c, states[n].shared, states[n].threads[tid], actions[n].input));
  }

  lemma DebitStepCharges(c: Config, states: seq<State>, actions: seq<Action>, n: nat, tid: nat)
    requires n < |actions| < |states| && Own(c, states[n], actions[n], tid) && states[n].threads[tid].phase.Debit?
    requires Charged(c, states, actions, n, tid, states[n].threads[tid]) && states[n + 1] == Next(c, states[n], actions[n])
    ensures Charged(c, states, actions, n + 1, tid, NextThread(c, states[n].shared, states[n].threads[tid], actions[n].input))
  {
    var th, after := states[n].threads[tid], NextThread(c, states[n].shared, states[n].threads[tid], actions[n].input);
    StepDebits(c, states[n], tid, actions[n].input);
    StepMoves(c, states[n].shared, th, actions[n].input);
    StaysSettled(c, states, actions, n, tid, th, after);
    assert Collects(states[n], actions[n], states[n + 1], tid, after);
  }

  lemma ThreadStaysCharged(c: Config, states: seq<State>, actions: seq<Action>, n: nat, tid: nat)
    requires Trace(c, states, actions) && n < |actions| && tid < |states[n].threads|
    requires Charged(c, states, actions, n, tid, states[n].threads[tid])
    ensures Charged(c, states, actions, n + 1, tid, states[n + 1].threads[tid])
  {
    var s, a := states[n], actions[n];
    var th := s.threads[tid];
    assert states[n + 1] == Next(c, s, a);
    if Own(c, s, a, tid) {
      var after := NextThread(c, s.shared, th, a.input);
      StepMoves(c, s.shared, th, a.input);
      if th.phase.Settle? {
        SettleStepCharges(c, states, actions, n, tid);
      } else if th.phase.Debit? {
        DebitStepCharges(c, states, actions, n, tid);
      } else {
        OtherStepKeepsCharge(c, states, actions, n, tid, th, after);
      }
    } else {
      assert states[n + 1].threads[tid] == th;
      StillCharged(c, states, actions, n, tid, th);
    }
  }

  lemma StillCharged(c: Config, states: seq<State>, actions: seq<Action>, n: nat, tid: nat, th: Thread)
    requires n < |actions| < |states| && Charged(c, states, actions, n, tid, th)
    ensures Charged(c, states, actions, n + 1, tid, th)
  {
    if WasSettled(c, states, actions, n, tid, th) {
      StaysSettled(c, states, actions, n, tid, th, th);
    }
    if WasTried(states, actions, n, tid, th) {
      StaysTried(states, actions, n, tid, th, th);
    }
  }

  lemma {:induction false} EveryRequestCharged(c: Config, states: seq<State>, actions: seq<Action>, n: nat, tid: nat)
    requires Trace(c, states, actions) && Fresh(states[0]) && n <= |actions| && tid < |states[n].threads|
    ensures Charged(c, states, actions, n, tid, states[n].threads[tid])
  {
    if n > 0 {
      assert states[n - 1 + 1] == Next(c, states[n - 1], actions[n - 1]);
      if tid < |states[n - 1].threads| {
        EveryRequestCharged(c, states, actions, n - 1, tid);
        ThreadStaysCharged(c, states, actions, n - 1, tid);
      }
    }
  }

  /**
   In every run, a request past its debit, which every served request is, was charged
   once, at a price the table gave; a positive charge met one debit step, which took it
   from the balance with its ledger row when the balance covered it and changed nothing
   when it did not; and without a positive charge nothing was taken.
   */
  lemma ChargedMeansDebitedOrRefused(c: Config, states: seq<State>, actions: seq<Action>, n: nat, tid: nat)
    requires Trace(c, states, actions) && Fresh(states[0]) && n <= |actions| && tid < |states[n].threads|
    requires PastDebit(states[n].threads[tid].phase)
    ensures var th := states[n].threads[tid];
      && (exists i :: 0 <= i < n && Settles(c, states[i], actions[i], tid, th))
      && (if th.charge > 0 then exists i :: 0 <= i < n && Collects(states[i], actions[i], states[i + 1], tid, th) else !th.debited)
  {
    EveryRequestCharged(c, states, actions, n, tid);
  }
}
