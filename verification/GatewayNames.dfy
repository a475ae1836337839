/** Names over every interleaving: rows and providers stay under their own names, which stickiness relies on. */
module GatewayNames {
  import opened Billing
  import opened Gateway
  import opened GatewaySequential
  import opened SnapshotView
  import opened Tables
  import Selection

  /** Tables, listings being read and the published snapshot are keyed by name. */
  ghost predicate Named(s: State) {
    && KeyedByName(ListingsOf(s.shared.db))
    && Selection.NamesAgree(s.shared.snapshot)
    && forall i :: 0 <= i < |s.threads| ==> KeyedByName(s.threads[i].read)
  }

  lemma ReloadKeepsNames(s: Shared, th: Thread, tablesRead: nat, next: Phase)
    requires KeyedByName(ListingsOf(s.db)) && KeyedByName(th.read)
    ensures KeyedByName(AfterReload(s, th, tablesRead, next).read)
  {
  }

  lemma ThreadKeepsNames(c: Config, s: Shared, th: Thread, input: Input)
    requires KeyedByName(ListingsOf(s.db)) && KeyedByName(th.read)
    ensures KeyedByName(NextThread(c, s, th, input).read)
  {
    if th.phase.Reload? {
      ReloadKeepsNames(s, th, th.phase.tablesRead, th.phase.next);
    } else if !th.phase.Choose? {
      KeepsKey(c, s, th, input);
    }
  }

  lemma DeductKeepsNames(db: Database, key: string, delta: int, reason: string, ref: string)
    requires KeyedByName(ListingsOf(db))
    ensures KeyedByName(ListingsOf(Deduct(db, key, delta, reason, ref)))
  {
  }

  lemma DatabaseKeepsNames(c: Config, db: Database, th: Thread, input: Input)
    requires KeyedByName(ListingsOf(db))
    ensures KeyedByName(ListingsOf(NextDatabase(c, db, th, input.now)))
  {
    if th.phase.Debit? {
      DeductKeepsNames(db, th.token, th.charge, "usage", th.model);
    } else {
      var after := NextDatabase(c, db, th, input.now);
      assert after.providers == db.providers && after.apiKeys == db.apiKeys;
    }
  }

  lemma AdminKeepsNames(db: Database, a: Action)
    requires KeyedByName(ListingsOf(db))
    ensures KeyedByName(ListingsOf(Administer(db, a)))
  {
  }

  lemma StepKeepsNames(c: Config, s: State, tid: nat, input: Input)
    requires Named(s) && tid < |s.threads|
    ensures Named(Step(c, s, tid, input))
  {
    var th := s.threads[tid];
    if CanStep(c, s.shared, th, input) {
      ThreadKeepsNames(c, s.shared, th, input);
      DatabaseKeepsNames(c, s.shared.db, th, input);
      ViewNamesAgree(th.read, c.decode);
    }
  }

  lemma ActionKeepsNames(c: Config, s: State, a: Action)
    requires Named(s)
    ensures Named(Next(c, s, a))
  {
    match a
    case Arrive(_, _, _, _) =>
    case StartReload =>
    case Advance(tid, input) =>
      if tid < |s.threads| {
        StepKeepsNames(c, s, tid, input);
      }
    case _ =>
      AdminKeepsNames(s.shared.db, a);
  }

  /** In every reachable state, providers are published under their own names, and the tables keep theirs. */
  lemma {:induction false} EveryStateNamed(c: Config, states: seq<State>, actions: seq<Action>)
    requires Trace(c, states, actions) && Fresh(states[0])
    requires KeyedByName(ListingsOf(states[0].shared.db)) && states[0].shared.snapshot == View(ListingsOf(states[0].shared.db), c.decode)
    ensures Named(states[|actions|])
  {
    if actions == [] {
      ViewNamesAgree(ListingsOf(states[0].shared.db), c.decode);
    } else {
      var n := |actions| - 1;
      TracePrefix(c, states, actions);
      EveryStateNamed(c, states[..n + 1], actions[..n]);
      ActionKeepsNames(c, states[n], actions[n]);
    }
  }
}
