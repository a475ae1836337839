/**
 Key health over every interleaving: outcomes are written from copies of keys
 that may be stale, through a snapshot that may be stale, and still no row ever
 holds a full error count, or errors beside a cooldown.
 */
module GatewayHealth {
  import opened Base
  import opened Clock
  import opened Gateway
  import opened Health
  import opened SnapshotView
  import opened Sorting
  import opened Sums
  import opened Tables

  /** The health of a row: fewer errors than the threshold, and none while cooling down. */
  predicate RowOk(p: Policy, pk: ProviderKey) {
    0 <= pk.consecutiveErrs < Threshold(p) && (pk.cooldownUntil != 0 ==> pk.consecutiveErrs == 0)
  }

  /** The same of a key in a snapshot or in a request's hands. */
  predicate CopyOk(p: Policy, k: ProviderKeyState) {
    0 <= k.consecutiveErrs < Threshold(p) && (k.cooldownUntil != UnixTime(0) ==> k.consecutiveErrs == 0)
  }

  predicate RowsOk(p: Policy, rows: seq<ProviderKey>) {
    forall i :: 0 <= i < |rows| ==> RowOk(p, rows[i])
  }

  predicate ProviderOk(p: Policy, provider: ProviderState) {
    forall i :: 0 <= i < |provider.keys| ==> CopyOk(p, provider.keys[i])
  }

  predicate SnapshotOk(p: Policy, snap: Snapshot) {
    forall name :: name in snap.providers ==> ProviderOk(p, snap.providers[name])
  }

  /** What a thread holds: rows read by a reload under way, and the key it was given. */
  predicate ThreadOk(p: Policy, th: Thread) {
    RowsOk(p, th.read.providerKeys) && (th.key.Some? ==> CopyOk(p, th.key.value))
  }

  /** The inductive invariant: the store, the published snapshot, and every copy in flight. */
  predicate Healthy(p: Policy, s: State) {
    && RowsOk(p, s.shared.db.providerKeys)
    && SnapshotOk(p, s.shared.snapshot)
    && forall i :: 0 <= i < |s.threads| ==> ThreadOk(p, s.threads[i])
  }

  /** Whatever copy a failure is counted from, what it writes is healthy. */
  lemma WrittenIsOk(p: Policy, k: ProviderKeyState, recover: nat, now: Time)
    requires CopyOk(p, k)
    ensures var w := OnFailure(p, k.consecutiveErrs, recover, now);
            0 <= w.errs < Threshold(p) && (w.cooldown != 0 ==> w.errs == 0)
  {
  }

  lemma UpdateKeepsRows(p: Policy, rows: seq<ProviderKey>, id: int, w: Written, status: string)
    requires RowsOk(p, rows) && 0 <= w.errs < Threshold(p) && (w.cooldown != 0 ==> w.errs == 0)
    ensures RowsOk(p, UpdateHealth(rows, id, w, status))
  {
  }

  lemma MembersKeepRows(p: Policy, rows: seq<ProviderKey>, some: seq<ProviderKey>)
    requires RowsOk(p, rows) && forall pk :: pk in some ==> pk in rows
    ensures RowsOk(p, some)
  {
    forall i | 0 <= i < |some| ensures RowOk(p, some[i]) {
      assert some[i] in rows;
    }
  }

  lemma ListingKeepsRows(p: Policy, rows: seq<ProviderKey>)
    requires RowsOk(p, rows)
    ensures RowsOk(p, ListProviderKeys(rows))
  {
    SortPermutes(rows, KeyBefore);
    forall pk | pk in ListProviderKeys(rows) ensures pk in rows {
      assert pk in multiset(ListProviderKeys(rows));
    }
    MembersKeepRows(p, rows, ListProviderKeys(rows));
  }

  lemma ViewKeepsRows(p: Policy, l: Listings, decode: Decoder)
    requires RowsOk(p, l.providerKeys)
    ensures SnapshotOk(p, View(l, decode))
  {
    forall name | name in l.providers ensures ProviderOk(p, ProviderView(l.providers[name], l.providerKeys)) {
      var of := OfProvider(l.providers[name].name);
      FilterMembers(l.providerKeys, of);
      MembersKeepRows(p, l.providerKeys, Filter(l.providerKeys, of));
    }
  }

  lemma {:induction false} IndexOfKeyFinds(rows: seq<ProviderKey>, id: int)
    ensures -1 <= IndexOfKey(rows, id) < |rows|
  {
    if rows != [] {
      IndexOfKeyFinds(rows[..|rows| - 1], id);
    }
  }

  lemma AdminKeepsRows(p: Policy, db: Database, a: Action)
    requires RowsOk(p, db.providerKeys)
    ensures RowsOk(p, Administer(db, a).providerKeys)
  {
    match a
    case PutProviderKey(pk) =>
      IndexOfKeyFinds(db.providerKeys, pk.id);
    case DropProviderKey(id) =>
      FilterMembers(db.providerKeys, (pk: ProviderKey) => pk.id != id);
      MembersKeepRows(p, db.providerKeys, Administer(db, a).providerKeys);
    case DropProvider(name) =>
      FilterMembers(db.providerKeys, (pk: ProviderKey) => pk.providerName != name);
      MembersKeepRows(p, db.providerKeys, Administer(db, a).providerKeys);
    case _ =>
      assert Administer(db, a).providerKeys == db.providerKeys;
  }

  lemma DatabaseKeepsRows(c: Config, db: Database, th: Thread, now: Time)
    requires RowsOk(c.policy, db.providerKeys) && ThreadOk(c.policy, th)
    ensures RowsOk(c.policy, NextDatabase(c, db, th, now).providerKeys)
  {
    if th.phase.RecordFailure? && Chosen(th) {
      WrittenIsOk(c.policy, th.key.value, th.provider.value.recoverInterval, now);
      UpdateKeepsRows(c.policy, db.providerKeys, th.key.value.id,
                      OnFailure(c.policy, th.key.value.consecutiveErrs, th.provider.value.recoverInterval, now), th.phase.status);
    } else if th.phase.RecordSuccess? && Chosen(th) {
      UpdateKeepsRows(c.policy, db.providerKeys, th.key.value.id, OnSuccess(), "ok");
    } else {
      assert NextDatabase(c, db, th, now).providerKeys == db.providerKeys;
    }
  }

  lemma ChoiceSource(s: Shared, th: Thread, input: Input)
    ensures var after := AfterChoose(s, th, input);
      && after.read == th.read
      && (after.key == th.key
          || exists name, i :: name in s.snapshot.providers && 0 <= i < |s.snapshot.providers[name].keys|
                               && after.key == Some(s.snapshot.providers[name].keys[i]))
  {
    if input.choice.Some? {
      var (name, index) := input.choice.value;
      if Offered(s.snapshot, th, name, index, input.now) {
        assert AfterChoose(s, th, input).key == Some(s.snapshot.providers[name].keys[index]);
      }
    }
  }

  /** Where a step's thread gets the rows and the key it holds. */
  lemma ThreadSources(c: Config, s: Shared, th: Thread, input: Input)
    ensures var after := NextThread(c, s, th, input);
      && (after.read.providerKeys == th.read.providerKeys || after.read.providerKeys == ListProviderKeys(s.db.providerKeys))
      && (after.key == th.key
          || exists name, i :: name in s.snapshot.providers && 0 <= i < |s.snapshot.providers[name].keys|
                               && after.key == Some(s.snapshot.providers[name].keys[i]))
  {
    if th.phase.Choose? {
      ChoiceSource(s, th, input);
    } else if th.phase.Reload? {
      assert NextThread(c, s, th, input) == AfterReload(s, th, th.phase.tablesRead, th.phase.next);
    } else if th.phase.RuleLoop? {
      assert NextThread(c, s, th, input) == AfterRules(c, s, th);
    }
  }

  lemma ThreadKeepsCopies(c: Config, s: Shared, th: Thread, input: Input)
    requires RowsOk(c.policy, s.db.providerKeys) && SnapshotOk(c.policy, s.snapshot) && ThreadOk(c.policy, th)
    ensures ThreadOk(c.policy, NextThread(c, s, th, input))
  {
    ThreadSources(c, s, th, input);
    ListingKeepsRows(c.policy, s.db.providerKeys);
    var after := NextThread(c, s, th, input);
    if after.key != th.key {
      var name, i :| name in s.snapshot.providers && 0 <= i < |s.snapshot.providers[name].keys|
                     && after.key == Some(s.snapshot.providers[name].keys[i]);
      assert ProviderOk(c.policy, s.snapshot.providers[name]);
    }
  }

  lemma StepKeepsHealthy(c: Config, s: State, a: Action)
    requires Healthy(c.policy, s)
    ensures Healthy(c.policy, Next(c, s, a))
  {
    match a
    case Arrive(_, _, _, _) =>
    case StartReload =>
    case Advance(tid, input) =>
      if tid < |s.threads| {
        var th := s.threads[tid];
        DatabaseKeepsRows(c, s.shared.db, th, input.now);
        ThreadKeepsCopies(c, s.shared, th, input);
        ViewKeepsRows(c.policy, th.read, c.decode);
      }
    case _ =>
      AdminKeepsRows(c.policy, s.shared.db, a);
  }

  predicate FreshRows(rows: seq<ProviderKey>) {
    forall i :: 0 <= i < |rows| ==> rows[i].consecutiveErrs == 0 && rows[i].cooldownUntil == 0
  }

  /** A gateway started on fresh rows: NewServer publishes the view of its tables. */
  predicate StartedFresh(c: Config, s: State) {
    Fresh(s) && FreshRows(s.shared.db.providerKeys) && s.shared.snapshot == View(ListingsOf(s.shared.db), c.decode)
  }

  lemma {:induction false} EveryStateHealthy(c: Config, states: seq<State>, actions: seq<Action>)
    requires Trace(c, states, actions) && StartedFresh(c, states[0])
    ensures Healthy(c.policy, states[|actions|])
  {
    if actions == [] {
      ListingKeepsRows(c.policy, states[0].shared.db.providerKeys);
      ViewKeepsRows(c.policy, ListingsOf(states[0].shared.db), c.decode);
    } else {
      var n := |actions| - 1;
      TracePrefix(c, states, actions);
      EveryStateHealthy(c, states[..n + 1], actions[..n]);
      StepKeepsHealthy(c, states[n], actions[n]);
    }
  }

  /**
   In every reachable state of any interleaving, started from fresh rows, every
   stored row has fewer errors than the threshold and no errors beside a cooldown.
   */
  lemma StoredHealthStaysSound(c: Config, states: seq<State>, actions: seq<Action>)
    requires Trace(c, states, actions) && StartedFresh(c, states[0])
    ensures forall pk :: pk in states[|actions|].shared.db.providerKeys ==>
              0 <= pk.consecutiveErrs < Threshold(c.policy) && (pk.cooldownUntil != 0 ==> pk.consecutiveErrs == 0)
  {
    EveryStateHealthy(c, states, actions);
    var rows := states[|actions|].shared.db.providerKeys;
    forall pk | pk in rows ensures RowOk(c.policy, pk) {
      var i :| 0 <= i < |rows| && rows[i] == pk;
    }
  }
}
