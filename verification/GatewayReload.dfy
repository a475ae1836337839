/**
 Reloads as five separate table reads and a publication, interleaved with
 everything else: when the last snapshot published came from a reload that
 began after the last write, it is the view of the tables.
 */
module GatewayReload {
  import opened Gateway
  import opened SnapshotView

  /** Thread `tid` is reloading, with this many tables read. */
  predicate Reloading(s: State, tid: nat, tablesRead: nat) {
    tid < |s.threads| && s.threads[tid].phase.Reload? && s.threads[tid].phase.tablesRead == tablesRead
  }

  /** The action publishes a snapshot. */
  predicate Publishes(s: State, a: Action) {
    a.Advance? && a.tid < |s.threads| && s.threads[a.tid].phase.Reload? && s.threads[a.tid].phase.tablesRead >= 5
  }

  /** The action leaves the five tables a reload reads as they are. */
  predicate WritesNothing(c: Config, s: State, a: Action) {
    ListingsOf(Next(c, s, a).shared.db) == ListingsOf(s.shared.db)
  }

  /** What a reload has read so far agrees with the tables. */
  predicate ReadsAgree(read: Listings, now: Listings, tablesRead: nat) {
    && (tablesRead > 0 ==> read.providers == now.providers)
    && (tablesRead > 1 ==> read.providerKeys == now.providerKeys)
    && (tablesRead > 2 ==> read.apiKeys == now.apiKeys)
    && (tablesRead > 3 ==> read.rules == now.rules)
    && (tablesRead > 4 ==> read.schedules == now.schedules)
  }

  lemma ReadsOneMore(s: Shared, th: Thread, now: Listings)
    requires th.phase.Reload? && th.phase.tablesRead < 5 && ListingsOf(s.db) == now
    requires ReadsAgree(th.read, now, th.phase.tablesRead)
    ensures var after := AfterReload(s, th, th.phase.tablesRead, th.phase.next);
            after.phase == Reload(th.phase.tablesRead + 1, th.phase.next) && ReadsAgree(after.read, now, th.phase.tablesRead + 1)
  {
  }

  /** A reload's own step reads the next table; other steps leave its reads alone. */
  lemma ReloadProgress(c: Config, s: State, a: Action, tid: nat, now: Listings)
    requires tid < |s.threads| && s.threads[tid].phase.Reload? && !(Publishes(s, a) && a.tid == tid)
    requires ListingsOf(s.shared.db) == now
    requires ReadsAgree(s.threads[tid].read, now, s.threads[tid].phase.tablesRead)
    ensures var after := Next(c, s, a).threads;
            tid < |after| && after[tid].phase.Reload? && ReadsAgree(after[tid].read, now, after[tid].phase.tablesRead)
            && s.threads[tid].phase.tablesRead <= after[tid].phase.tablesRead
  {
    if a.Advance? && a.tid == tid {
      var th := s.threads[tid];
      assert Next(c, s, a).threads[tid] == NextThread(c, s.shared, th, a.input)
          == AfterReload(s.shared, th, th.phase.tablesRead, th.phase.next);
      ReadsOneMore(s.shared, th, now);
    }
  }

  /** No action in [from, until) writes the tables a reload reads. */
  ghost predicate QuietBetween(c: Config, states: seq<State>, actions: seq<Action>, from: nat, until: nat)
    requires |states| == |actions| + 1 && until <= |actions|
  {
    forall i :: from <= i < until ==> WritesNothing(c, states[i], actions[i])
  }

  lemma {:induction false} TablesStandStill(c: Config, states: seq<State>, actions: seq<Action>, from: nat, until: nat)
    requires Trace(c, states, actions) && from <= until <= |actions| && QuietBetween(c, states, actions, from, until)
    ensures ListingsOf(states[until].shared.db) == ListingsOf(states[from].shared.db)
  {
    if from < until {
      TablesStandStill(c, states, actions, from, until - 1);
      assert WritesNothing(c, states[until - 1], actions[until - 1]);
      assert states[until - 1 + 1] == Next(c, states[until - 1], actions[until - 1]);
    }
  }

  /** The thread is reloading, and what it has read agrees with the tables as they were then. */
  predicate ReadTrue(s: State, tid: nat, now: Listings) {
    && tid < |s.threads| && s.threads[tid].phase.Reload?
    && ReadsAgree(s.threads[tid].read, now, s.threads[tid].phase.tablesRead)
  }

  /** The action publishes the snapshot of that thread's reload. */
  predicate PublishesOwn(s: State, a: Action, tid: nat) {
    Publishes(s, a) && a.tid == tid
  }

  lemma ReloadStepTrue(c: Config, s: State, after: State, a: Action, tid: nat, now: Listings)
    requires after == Next(c, s, a) && ReadTrue(s, tid, now) && !PublishesOwn(s, a, tid)
    requires ListingsOf(s.shared.db) == now
    ensures ReadTrue(after, tid, now)
  {
    ReloadProgress(c, s, a, tid, now);
  }

  /** While nothing is written, a reload that has just begun keeps agreeing with the tables. */
  lemma {:induction false} ReloadStaysTrue(c: Config, states: seq<State>, actions: seq<Action>, tid: nat, from: nat, until: nat)
    requires Trace(c, states, actions) && from <= until <= |actions| && QuietBetween(c, states, actions, from, until)
    requires Reloading(states[from], tid, 0)
    requires forall i :: from <= i < until ==> !PublishesOwn(states[i], actions[i], tid)
    ensures ReadTrue(states[until], tid, ListingsOf(states[from].shared.db))
  {
    if from < until {
      var n := until - 1;
      ReloadStaysTrue(c, states, actions, tid, from, n);
      TablesStandStill(c, states, actions, from, n);
      assert states[n + 1] == Next(c, states[n], actions[n]);
      ReloadStepTrue(c, states[n], states[n + 1], actions[n], tid, ListingsOf(states[from].shared.db));
    }
  }

  lemma SnapshotChangesOnlyByPublishing(c: Config, s: State, a: Action)
    requires !Publishes(s, a)
    ensures Next(c, s, a).shared.snapshot == s.shared.snapshot
  {
  }

  lemma {:induction false} SnapshotStays(c: Config, states: seq<State>, actions: seq<Action>, from: nat, until: nat)
    requires Trace(c, states, actions) && from <= until <= |actions|
    requires forall i :: from <= i < until ==> !Publishes(states[i], actions[i])
    ensures states[until].shared.snapshot == states[from].shared.snapshot
  {
    if from < until {
      SnapshotStays(c, states, actions, from, until - 1);
      assert states[until - 1 + 1] == Next(c, states[until - 1], actions[until - 1]);
      SnapshotChangesOnlyByPublishing(c, states[until - 1], actions[until - 1]);
    }
  }

  lemma PublishesRead(c: Config, s: State, a: Action, now: Listings)
    requires Publishes(s, a)
    requires ReadsAgree(s.threads[a.tid].read, now, s.threads[a.tid].phase.tablesRead)
    ensures Next(c, s, a).shared.snapshot == View(now, c.decode)
  {
    assert s.threads[a.tid].read == now;
  }

  /**
   The snapshot agrees with the tables: let a reload begin at step `begin` and
   publish at step `publish`, with nothing written from its beginning on and
   nothing published after it.  Then the snapshot at the end is the view of the
   tables at the end, whatever else ran in between.
   */
  lemma LastReloadPublishesView(c: Config, states: seq<State>, actions: seq<Action>, tid: nat, begin: nat, publish: nat)
    requires Trace(c, states, actions) && begin <= publish < |actions|
    requires Reloading(states[begin], tid, 0)
    requires PublishesOwn(states[publish], actions[publish], tid)
    requires forall i :: begin <= i < publish ==> !PublishesOwn(states[i], actions[i], tid)
    requires QuietBetween(c, states, actions, begin, |actions|)
    requires forall i :: publish < i < |actions| ==> !Publishes(states[i], actions[i])
    ensures states[|actions|].shared.snapshot == View(ListingsOf(states[|actions|].shared.db), c.decode)
  {
    var now := ListingsOf(states[begin].shared.db);
    ReloadStaysTrue(c, states, actions, tid, begin, publish);
    assert states[publish + 1] == Next(c, states[publish], actions[publish]);
    PublishesRead(c, states[publish], actions[publish], now);
    SnapshotStays(c, states, actions, publish + 1, |actions|);
    TablesStandStill(c, states, actions, begin, |actions|);
  }
}
