/**
 Key health over runs in which the outcomes of one key follow one another: the
 stored row is then the fold of those outcomes, and a pick meets that row.

 Two things may not straddle an outcome: another attempt with the same key, and
 a reload that has read the key table and not yet published.  Everything else may
 interleave, and a gateway that serves one request at a time meets both.
 */
module GatewaySequential {
  import opened Clock
  import opened Gateway
  import opened GatewayHealth
  import opened Health
  import opened SnapshotView
  import opened Sorting
  import opened Sums
  import opened Tables
  import Selection

  // ---- What holds of one key ----

  /** Every row of that id has these health columns. */
  predicate Columns(rows: seq<ProviderKey>, id: int, w: Written) {
    forall i :: 0 <= i < |rows| && rows[i].id == id ==> rows[i].consecutiveErrs == w.errs && rows[i].cooldownUntil == w.cooldown
  }

  /** The same of a copy of the key. */
  predicate CopyIs(k: ProviderKeyState, id: int, w: Written) {
    k.id == id ==> k.consecutiveErrs == w.errs && k.cooldownUntil == UnixTime(w.cooldown)
  }

  predicate ProviderIs(p: ProviderState, id: int, w: Written) {
    forall i :: 0 <= i < |p.keys| ==> CopyIs(p.keys[i], id, w)
  }

  predicate SnapshotIs(snap: Snapshot, id: int, w: Written) {
    forall name :: name in snap.providers ==> ProviderIs(snap.providers[name], id, w)
  }

  predicate Holds(th: Thread, id: int) { Chosen(th) && th.key.value.id == id }

  /** From the pick to the outcome's write. */
  predicate Trying(th: Thread, id: int) {
    Holds(th, id) && (th.phase.ChannelLimit? || th.phase.Forward? || th.phase.RecordFailure? || th.phase.RecordSuccess?)
  }

  /** From the outcome's write to the publication after it. */
  predicate Publishing(th: Thread, id: int) {
    Holds(th, id) && th.phase.Reload? && (th.phase.next.CountFailure? || th.phase.next.Settle?)
  }

  /** An attempt with the key is under way. */
  predicate Engaged(th: Thread, id: int) { Trying(th, id) || Publishing(th, id) }

  /** A reload has read the key table and not yet published. */
  predicate HoldsListing(th: Thread) { th.phase.Reload? && th.phase.tablesRead >= 2 }

  // ---- Picks and outcomes in a run ----

  predicate Picks(s: State, a: Action, after: State, id: int) {
    && a.Advance? && a.tid < |s.threads| && a.tid < |after.threads|
    && s.threads[a.tid].phase.Choose? && after.threads[a.tid].phase.ChannelLimit?
    && Holds(after.threads[a.tid], id)
  }

  predicate Writes(s: State, a: Action, id: int) {
    && a.Advance? && a.tid < |s.threads| && Holds(s.threads[a.tid], id)
    && (s.threads[a.tid].phase.RecordFailure? || s.threads[a.tid].phase.RecordSuccess?)
  }

  function OutcomeOf(s: State, a: Action, id: int): KeyOutcome
    requires Writes(s, a, id)
  {
    KeyOutcome(a.input.now, s.threads[a.tid].phase.RecordSuccess?, s.threads[a.tid].provider.value.recoverInterval)
  }

  /** The outcomes written for the key in the first n actions. */
  function Outcomes(states: seq<State>, actions: seq<Action>, n: nat, id: int): seq<KeyOutcome>
    requires n <= |actions| < |states|
  {
    if n == 0 then []
    else
      Outcomes(states, actions, n - 1, id)
      + if Writes(states[n - 1], actions[n - 1], id) then [OutcomeOf(states[n - 1], actions[n - 1], id)] else []
  }

  /** A key is added under the id. */
  predicate Adds(s: State, a: Action, id: int) {
    && a.PutProviderKey? && a.pk.id == id
    && forall i :: 0 <= i < |s.shared.db.providerKeys| ==> s.shared.db.providerKeys[i].id != id
  }

  /** The step does not make two attempts with the key overlap, nor an outcome of the key a reload. */
  predicate InTurn(s: State, a: Action, after: State, id: int) {
    && (Picks(s, a, after, id) ==> forall j :: 0 <= j < |s.threads| ==> !Engaged(s.threads[j], id))
    && (Writes(s, a, id) ==> forall j :: 0 <= j < |s.threads| && j != a.tid ==> !HoldsListing(s.threads[j]))
  }

  /** Attempts with the key come in turn, and ids are not used again. */
  predicate Orderly(states: seq<State>, actions: seq<Action>, id: int)
    requires |states| == |actions| + 1
  {
    forall i :: 0 <= i < |actions| ==>
      && InTurn(states[i], actions[i], states[i + 1], id)
      && (Adds(states[i], actions[i], id) ==> Outcomes(states, actions, i, id) == [])
  }

  // ---- The invariant ----

  predicate SomePublishing(threads: seq<Thread>, id: int) {
    exists i :: 0 <= i < |threads| && Publishing(threads[i], id)
  }

  predicate AtMostOne(threads: seq<Thread>, id: int) {
    forall i, j :: 0 <= i < j < |threads| ==> !(Engaged(threads[i], id) && Engaged(threads[j], id))
  }

  /** A thread's own listing and copy are current. */
  predicate ThreadIs(th: Thread, id: int, w: Written) {
    && ReturnsFromReload(th.phase)
    && (HoldsListing(th) ==> Columns(th.read.providerKeys, id, w))
    && (Trying(th, id) ==> CopyIs(th.key.value, id, w))
  }

  /** Rows, listings and copies agree; the snapshot does too, unless the last outcome is being published. */
  predicate Current(s: State, id: int, w: Written) {
    && Columns(s.shared.db.providerKeys, id, w)
    && (forall i :: 0 <= i < |s.threads| ==> ThreadIs(s.threads[i], id, w))
    && AtMostOne(s.threads, id)
    && (SnapshotIs(s.shared.snapshot, id, w) || SomePublishing(s.threads, id))
  }

  lemma MembersKeepColumns(rows: seq<ProviderKey>, some: seq<ProviderKey>, id: int, w: Written)
    requires Columns(rows, id, w) && forall pk :: pk in some ==> pk in rows
    ensures Columns(some, id, w)
  {
    forall i | 0 <= i < |some| && some[i].id == id ensures some[i].consecutiveErrs == w.errs && some[i].cooldownUntil == w.cooldown {
      assert some[i] in rows;
    }
  }

  lemma ListingKeepsColumns(rows: seq<ProviderKey>, id: int, w: Written)
    requires Columns(rows, id, w)
    ensures Columns(ListProviderKeys(rows), id, w)
  {
    SortPermutes(rows, KeyBefore);
    forall pk | pk in ListProviderKeys(rows) ensures pk in rows {
      assert pk in multiset(ListProviderKeys(rows));
    }
    MembersKeepColumns(rows, ListProviderKeys(rows), id, w);
  }

  lemma ViewKeepsColumns(l: Listings, decode: Decoder, id: int, w: Written)
    requires Columns(l.providerKeys, id, w)
    ensures SnapshotIs(View(l, decode), id, w)
  {
    forall name | name in l.providers ensures ProviderIs(ProviderView(l.providers[name], l.providerKeys), id, w) {
      var of := OfProvider(l.providers[name].name);
      FilterMembers(l.providerKeys, of);
      MembersKeepColumns(l.providerKeys, Filter(l.providerKeys, of), id, w);
    }
  }

  // ---- One step of a thread ----

  /** What a step that writes no outcome of the key leaves of its thread. */
  predicate Continues(th: Thread, after: Thread, id: int, w: Written, picks: bool) {
    && ThreadIs(after, id, w)
    && (Engaged(after, id) ==> Engaged(th, id) || picks)
    && (Publishing(th, id) ==> Publishing(after, id) || (th.phase.Reload? && th.phase.tablesRead >= 5))
  }

  /** What a reload has read of the key table after one more step. */
  lemma ReloadReads(s: Shared, th: Thread, tablesRead: nat, next: Phase)
    requires th.phase == Reload(tablesRead, next)
    ensures var after := AfterReload(s, th, tablesRead, next);
      && after.phase == (if tablesRead < 5 then Reload(tablesRead + 1, next) else next)
      && after.key == th.key && after.provider == th.provider
      && after.read.providerKeys == if tablesRead == 1 then ListProviderKeys(s.db.providerKeys) else th.read.providerKeys
  {
  }

  lemma ReloadContinues(s: State, th: Thread, tablesRead: nat, next: Phase, id: int, w: Written)
    requires ThreadIs(th, id, w) && th.phase == Reload(tablesRead, next)
    requires Columns(s.shared.db.providerKeys, id, w)
    ensures Continues(th, AfterReload(s.shared, th, tablesRead, next), id, w, false)
  {
    ReloadReads(s.shared, th, tablesRead, next);
    ListingKeepsColumns(s.shared.db.providerKeys, id, w);
  }

  lemma ChoiceContinues(s: State, th: Thread, input: Input, id: int, w: Written)
    requires ThreadIs(th, id, w) && th.phase.Choose?
    requires var after := AfterChoose(s.shared, th, input);
             after.phase.ChannelLimit? && Holds(after, id) ==> SnapshotIs(s.shared.snapshot, id, w)
    ensures var after := AfterChoose(s.shared, th, input);
            Continues(th, after, id, w, after.phase.ChannelLimit? && Holds(after, id))
  {
    var after := AfterChoose(s.shared, th, input);
    if after.phase.ChannelLimit? && Holds(after, id) {
      var (name, index) := input.choice.value;
      assert ProviderIs(s.shared.snapshot.providers[name], id, w);
    }
  }

  /** Only a choice gives a thread a key, and only a reload gives it rows. */
  lemma KeepsKey(c: Config, s: Shared, th: Thread, input: Input)
    requires !th.phase.Choose? && !th.phase.Reload?
    ensures var after := NextThread(c, s, th, input);
            after.key == th.key && after.provider == th.provider && after.read == th.read
  {
    if th.phase.RuleLoop? {
      assert NextThread(c, s, th, input) == AfterRules(c, s, th);
    }
  }

  lemma MoveContinues(th: Thread, after: Thread, id: int, w: Written)
    requires Moves(th, after) && !th.phase.Reload? && !th.phase.Choose?
    requires after.key == th.key && after.provider == th.provider && after.read == th.read
    requires (th.phase.RecordFailure? || th.phase.RecordSuccess?) ==> !Holds(th, id)
    requires ThreadIs(th, id, w)
    ensures Continues(th, after, id, w, false)
  {
  }

  // ---- One step of the machine ----

  lemma ThreadContinues(c: Config, s: State, tid: nat, input: Input, id: int, w: Written)
    requires Current(s, id, w) && tid < |s.threads| && CanStep(c, s.shared, s.threads[tid], input)
    requires var a := Advance(tid, input); !Writes(s, a, id) && InTurn(s, a, Next(c, s, a), id)
    ensures var a := Advance(tid, input);
            Continues(s.threads[tid], NextThread(c, s.shared, s.threads[tid], input), id, w, Picks(s, a, Next(c, s, a), id))
  {
    var th := s.threads[tid];
    var a := Advance(tid, input);
    var after := NextThread(c, s.shared, th, input);
    assert Next(c, s, a).threads[tid] == after;
    if th.phase.Reload? {
      ReloadContinues(s, th, th.phase.tablesRead, th.phase.next, id, w);
    } else if th.phase.Choose? {
      if after.phase.ChannelLimit? && Holds(after, id) {
        assert Picks(s, a, Next(c, s, a), id);
        assert !SomePublishing(s.threads, id);
      }
      ChoiceContinues(s, th, input, id, w);
    } else {
      StepMoves(c, s.shared, th, input);
      KeepsKey(c, s.shared, th, input);
      MoveContinues(th, after, id, w);
    }
  }

  lemma OtherRowsKeepColumns(rows: seq<ProviderKey>, other: int, v: Written, status: string, id: int, w: Written)
    requires Columns(rows, id, w) && other != id
    ensures Columns(UpdateHealth(rows, other, v, status), id, w)
  {
  }

  lemma DatabaseKeepsColumns(c: Config, db: Database, th: Thread, now: Time, id: int, w: Written)
    requires Columns(db.providerKeys, id, w)
    requires (th.phase.RecordFailure? || th.phase.RecordSuccess?) ==> !Holds(th, id)
    ensures Columns(NextDatabase(c, db, th, now).providerKeys, id, w)
  {
    if th.phase.RecordFailure? && Chosen(th) {
      OtherRowsKeepColumns(db.providerKeys, th.key.value.id,
                           OnFailure(c.policy, th.key.value.consecutiveErrs, th.provider.value.recoverInterval, now), th.phase.status, id, w);
    } else if th.phase.RecordSuccess? && Chosen(th) {
      OtherRowsKeepColumns(db.providerKeys, th.key.value.id, OnSuccess(), "ok", id, w);
    } else {
      assert NextDatabase(c, db, th, now).providerKeys == db.providerKeys;
    }
  }

  /** The threads after one of them continued. */
  lemma ThreadsContinue(threads: seq<Thread>, tid: nat, after: Thread, id: int, w: Written, picks: bool)
    requires tid < |threads| && Continues(threads[tid], after, id, w, picks)
    requires (forall i :: 0 <= i < |threads| ==> ThreadIs(threads[i], id, w)) && AtMostOne(threads, id)
    requires picks ==> forall j :: 0 <= j < |threads| ==> !Engaged(threads[j], id)
    ensures var threads' := threads[tid := after];
      && (forall i :: 0 <= i < |threads'| ==> ThreadIs(threads'[i], id, w)) && AtMostOne(threads', id)
      && (SomePublishing(threads, id) ==> SomePublishing(threads', id) || (threads[tid].phase.Reload? && threads[tid].phase.tablesRead >= 5))
  {
    var threads' := threads[tid := after];
    if i :| 0 <= i < |threads| && Publishing(threads[i], id) {
      assert threads'[i] == if i == tid then after else threads[i];
    }
    forall i, j | 0 <= i < j < |threads'| ensures !(Engaged(threads'[i], id) && Engaged(threads'[j], id)) {
      assert !(Engaged(threads[i], id) && Engaged(threads[j], id));
    }
  }

  lemma QuietStep(c: Config, s: State, tid: nat, input: Input, id: int, w: Written)
    requires Current(s, id, w) && tid < |s.threads| && CanStep(c, s.shared, s.threads[tid], input)
    requires var a := Advance(tid, input); !Writes(s, a, id) && InTurn(s, a, Next(c, s, a), id)
    ensures Current(Next(c, s, Advance(tid, input)), id, w)
  {
    var th, a := s.threads[tid], Advance(tid, input);
    var after := NextThread(c, s.shared, th, input);
    ThreadContinues(c, s, tid, input, id, w);
    ThreadsContinue(s.threads, tid, after, id, w, Picks(s, a, Next(c, s, a), id));
    DatabaseKeepsColumns(c, s.shared.db, th, input.now, id, w);
    if HoldsListing(th) {
      ViewKeepsColumns(th.read, c.decode, id, w);
    }
  }

  /** What an outcome writes, when the copy it is counted from is current. */
  function Recorded(p: Policy, w: Written, o: KeyOutcome): Written {
    if o.ok then OnSuccess() else OnFailure(p, w.errs, o.recover, o.done)
  }

  lemma OwnRowsGetColumns(rows: seq<ProviderKey>, id: int, w: Written, status: string)
    ensures Columns(UpdateHealth(rows, id, w, status), id, w)
  {
  }

  lemma DatabaseGetsColumns(c: Config, db: Database, th: Thread, now: Time, id: int, w: Written)
    requires (th.phase.RecordFailure? || th.phase.RecordSuccess?) && Holds(th, id) && CopyIs(th.key.value, id, w)
    ensures var o := KeyOutcome(now, th.phase.RecordSuccess?, th.provider.value.recoverInterval);
            Columns(NextDatabase(c, db, th, now).providerKeys, id, Recorded(c.policy, w, o))
  {
    if th.phase.RecordFailure? {
      OwnRowsGetColumns(db.providerKeys, id, OnFailure(c.policy, w.errs, th.provider.value.recoverInterval, now), th.phase.status);
    } else {
      OwnRowsGetColumns(db.providerKeys, id, OnSuccess(), "ok");
    }
  }

  lemma WriterPublishes(c: Config, s: Shared, th: Thread, input: Input, id: int)
    requires (th.phase.RecordFailure? || th.phase.RecordSuccess?) && Holds(th, id)
    ensures var after := NextThread(c, s, th, input);
            Publishing(after, id) && !HoldsListing(after) && !Trying(after, id) && ReturnsFromReload(after.phase)
  {
  }

  lemma WriteStep(c: Config, s: State, a: Action, id: int, w: Written)
    requires Current(s, id, w) && Writes(s, a, id) && InTurn(s, a, Next(c, s, a), id)
    ensures Current(Next(c, s, a), id, Recorded(c.policy, w, OutcomeOf(s, a, id)))
  {
    var th := s.threads[a.tid];
    var s', w' := Next(c, s, a), Recorded(c.policy, w, OutcomeOf(s, a, id));
    assert CanStep(c, s.shared, th, a.input);
    assert Trying(th, id) && Engaged(th, id);
    WriterPublishes(c, s.shared, th, a.input, id);
    DatabaseGetsColumns(c, s.shared.db, th, a.input.now, id, w);
    assert Publishing(s'.threads[a.tid], id);
    forall i | 0 <= i < |s'.threads| ensures ThreadIs(s'.threads[i], id, w') && (i != a.tid ==> !Engaged(s'.threads[i], id)) {
      assert i != a.tid ==> s'.threads[i] == s.threads[i];
      assert i < a.tid ==> !(Engaged(s.threads[i], id) && Engaged(th, id));
      assert i > a.tid ==> !(Engaged(th, id) && Engaged(s.threads[i], id));
    }
  }

  // ---- The administrator ----

  lemma AdminKeepsColumns(s: State, a: Action, id: int, w: Written)
    requires Columns(s.shared.db.providerKeys, id, w) && (Adds(s, a, id) ==> w == Written(0, 0))
    ensures Columns(Administer(s.shared.db, a).providerKeys, id, w)
  {
    var db := s.shared.db;
    match a
    case PutProviderKey(pk) =>
      IndexOfKeyFinds(db.providerKeys, pk.id);
      IndexOfKeyMeans(db.providerKeys, pk.id);
    case DropProviderKey(other) =>
      FilterMembers(db.providerKeys, (pk: ProviderKey) => pk.id != other);
      MembersKeepColumns(db.providerKeys, Administer(db, a).providerKeys, id, w);
    case DropProvider(name) =>
      FilterMembers(db.providerKeys, (pk: ProviderKey) => pk.providerName != name);
      MembersKeepColumns(db.providerKeys, Administer(db, a).providerKeys, id, w);
    case _ =>
      assert Administer(db, a).providerKeys == db.providerKeys;
  }

  lemma {:induction false} IndexOfKeyMeans(rows: seq<ProviderKey>, id: int)
    ensures var i := IndexOfKey(rows, id);
            if 0 <= i < |rows| then rows[i].id == id else forall j :: 0 <= j < |rows| ==> rows[j].id != id
  {
    if rows != [] {
      var before := rows[..|rows| - 1];
      IndexOfKeyMeans(before, id);
      IndexOfKeyFinds(before, id);
      assert forall j :: 0 <= j < |before| ==> before[j] == rows[j];
    }
  }

  lemma ArrivalKeepsCurrent(s: State, th: Thread, id: int, w: Written)
    requires Current(s, id, w) && ThreadIs(th, id, w) && !Engaged(th, id)
    ensures Current(s.(threads := s.threads + [th]), id, w)
  {
    var threads' := s.threads + [th];
    if i :| 0 <= i < |s.threads| && Publishing(s.threads[i], id) {
      assert threads'[i] == s.threads[i];
    }
  }

  // ---- Every state ----

  lemma ActionKeepsCurrent(c: Config, s: State, a: Action, id: int, w: Written)
    requires Current(s, id, w) && InTurn(s, a, Next(c, s, a), id) && (Adds(s, a, id) ==> w == Written(0, 0))
    ensures Current(Next(c, s, a), id, if Writes(s, a, id) then Recorded(c.policy, w, OutcomeOf(s, a, id)) else w)
  {
    match a
    case Arrive(token, model, path, bodyTokens) =>
      ArrivalKeepsCurrent(s, NewRequest(token, model, path, bodyTokens), id, w);
    case StartReload =>
      ArrivalKeepsCurrent(s, NewReload(), id, w);
    case Advance(tid, input) =>
      if Writes(s, a, id) {
        WriteStep(c, s, a, id, w);
      } else if tid < |s.threads| && CanStep(c, s.shared, s.threads[tid], input) {
        QuietStep(c, s, tid, input, id, w);
      }
    case _ =>
      AdminKeepsColumns(s, a, id, w);
  }

  lemma {:induction false} OutcomesOfPrefix(states: seq<State>, actions: seq<Action>, n: nat, m: nat, id: int)
    requires n <= m <= |actions| && |states| == |actions| + 1
    ensures Outcomes(states[..m + 1], actions[..m], n, id) == Outcomes(states, actions, n, id)
  {
    if n > 0 {
      OutcomesOfPrefix(states, actions, n - 1, m, id);
    }
  }

  /** The invariant: rows, listings, copies and snapshot hold the fold of the key's outcomes so far. */
  lemma {:induction false} EveryStateCurrent(c: Config, states: seq<State>, actions: seq<Action>, n: nat, id: int)
    requires Trace(c, states, actions) && StartedFresh(c, states[0]) && Orderly(states, actions, id) && n <= |actions|
    ensures Current(states[n], id, After(c.policy, Outcomes(states, actions, n, id)))
  {
    if n == 0 {
      ListingKeepsColumns(states[0].shared.db.providerKeys, id, Written(0, 0));
      ViewKeepsColumns(ListingsOf(states[0].shared.db), c.decode, id, Written(0, 0));
    } else {
      var before := Outcomes(states, actions, n - 1, id);
      EveryStateCurrent(c, states, actions, n - 1, id);
      assert states[n - 1 + 1] == Next(c, states[n - 1], actions[n - 1]);
      ActionKeepsCurrent(c, states[n - 1], actions[n - 1], id, After(c.policy, before));
      if Writes(states[n - 1], actions[n - 1], id) {
        AfterOneMore(c.policy, before, OutcomeOf(states[n - 1], actions[n - 1], id));
      } else {
        assert Outcomes(states, actions, n, id) == before;
      }
    }
  }

  lemma AfterOneMore(p: Policy, run: seq<KeyOutcome>, o: KeyOutcome)
    ensures After(p, run + [o]) == Recorded(p, After(p, run), o)
  {
    assert (run + [o])[..|run|] == run;
  }

  // ---- The results, for the stored row ----

  /**
   In every state of an orderly run, each stored row of the key has an error count
   equal to its failures since its last success modulo the threshold, and a cooldown
   exactly when that number is a positive multiple of the threshold: the whole Unix
   seconds of the last failure's time plus the longer of the two intervals.
   */
  lemma StoredRowCountsFailures(c: Config, states: seq<State>, actions: seq<Action>, n: nat, pk: ProviderKey)
    requires Trace(c, states, actions) && StartedFresh(c, states[0]) && Orderly(states, actions, pk.id) && n <= |actions|
    requires pk in states[n].shared.db.providerKeys
    ensures var run := Outcomes(states, actions, n, pk.id);
            var failures, t := FailuresSinceSuccess(run), if c.policy.failThreshold > 1 then c.policy.failThreshold else 1;
      && pk.consecutiveErrs == failures % t
      && pk.cooldownUntil == if failures > 0 && failures % t == 0 then Until(c.policy, run[|run| - 1]) else 0
  {
    EveryStateCurrent(c, states, actions, n, pk.id);
    var rows := states[n].shared.db.providerKeys;
    var i :| 0 <= i < |rows| && rows[i] == pk;
    var run := Outcomes(states, actions, n, pk.id);
    ErrorsCountFailures(c.policy, run);
    if run != [] {
      CooldownAtMultiples(c.policy, run);
    }
  }

  /** The Unix second at which a rest begun by this failure ends. */
  function Until(p: Policy, o: KeyOutcome): int {
    var configured := p.cooldownSec * 1_000_000_000;
    (o.done + if o.recover > configured then o.recover else configured) / 1_000_000_000 - 62_135_596_800
  }

  /**
   In every state of an orderly run, a key at the threshold is live by its stored row
   as soon as both intervals have passed since its last failure, and a key short of
   the threshold has no cooldown in its row.
   */
  lemma LiveAgainAfterRest(c: Config, states: seq<State>, actions: seq<Action>, n: nat, pk: ProviderKey, now: Time)
    requires Trace(c, states, actions) && StartedFresh(c, states[0]) && Orderly(states, actions, pk.id) && n <= |actions|
    requires pk in states[n].shared.db.providerKeys
    ensures var run := Outcomes(states, actions, n, pk.id);
            if AtThreshold(c.policy, run) then
              var last := run[|run| - 1];
              (now > last.done + last.recover && now > last.done + c.policy.cooldownSec * 1_000_000_000 ==>
                now > (pk.cooldownUntil + 62_135_596_800) * 1_000_000_000)
            else pk.cooldownUntil == 0
  {
    EveryStateCurrent(c, states, actions, n, pk.id);
    var rows := states[n].shared.db.providerKeys;
    var i :| 0 <= i < |rows| && rows[i] == pk;
    var run := Outcomes(states, actions, n, pk.id);
    if AtThreshold(c.policy, run) {
      RestsBothIntervals(c.policy, run, now);
    } else {
      NoRestBetween(c.policy, run);
    }
  }

  /** A pick meets the stored health: the key is live by the outcomes so far. */
  lemma PickMeetsOutcomes(c: Config, states: seq<State>, actions: seq<Action>, n: nat, id: int)
    requires Trace(c, states, actions) && StartedFresh(c, states[0]) && Orderly(states, actions, id) && n < |actions|
    requires Picks(states[n], actions[n], states[n + 1], id)
    ensures Live(After(c.policy, Outcomes(states, actions, n, id)), actions[n].input.now)
  {
    EveryStateCurrent(c, states, actions, n, id);
    var s, a := states[n], actions[n];
    assert states[n + 1] == Next(c, s, a) && InTurn(s, a, states[n + 1], id);
    assert !SomePublishing(s.threads, id);
    PickIsLive(c, s, a.tid, a.input, id, After(c.policy, Outcomes(states, actions, n, id)));
  }

  lemma PickIsLive(c: Config, s: State, tid: nat, input: Input, id: int, w: Written)
    requires Picks(s, Advance(tid, input), Next(c, s, Advance(tid, input)), id) && SnapshotIs(s.shared.snapshot, id, w)
    ensures Live(w, input.now)
  {
    var th := s.threads[tid];
    assert Next(c, s, Advance(tid, input)).threads[tid] == AfterChoose(s.shared, th, input);
    var (name, index) := input.choice.value;
    var k := s.shared.snapshot.providers[name].keys[index];
    assert ProviderIs(s.shared.snapshot.providers[name], id, w);
    assert Selection.LiveKey(k, input.now) && CopyIs(k, id, w);
  }

  /**
   In an orderly run, a key at the threshold is not picked again until more than its
   provider's recover interval and more than the configured cooldown, each less one
   second, have passed since its last failure.
   */
  lemma NotPickedWhileResting(c: Config, states: seq<State>, actions: seq<Action>, n: nat, id: int)
    requires Trace(c, states, actions) && StartedFresh(c, states[0]) && Orderly(states, actions, id) && n < |actions|
    requires Picks(states[n], actions[n], states[n + 1], id)
    ensures var run, now := Outcomes(states, actions, n, id), actions[n].input.now;
            AtThreshold(c.policy, run) ==>
              var last := run[|run| - 1];
              && now > last.done + last.recover - 1_000_000_000
              && now > last.done + c.policy.cooldownSec * 1_000_000_000 - 1_000_000_000
  {
    var run := Outcomes(states, actions, n, id);
    PickMeetsOutcomes(c, states, actions, n, id);
    if AtThreshold(c.policy, run) {
      RestsBothIntervals(c.policy, run, actions[n].input.now);
    }
  }

  // ---- One request at a time ----

  /** At most one thread is unfinished in any state. */
  predicate OneAtATime(states: seq<State>) {
    forall i, j, k :: 0 <= i < |states| && 0 <= j < k < |states[i].threads|
      ==> states[i].threads[j].phase.Finished? || states[i].threads[k].phase.Finished?
  }

  lemma OthersFinished(states: seq<State>, i: nat, tid: nat, j: nat)
    requires OneAtATime(states) && i < |states| && tid < |states[i].threads| && j < |states[i].threads| && j != tid
    requires !states[i].threads[tid].phase.Finished?
    ensures states[i].threads[j].phase.Finished?
  {
    var threads := states[i].threads;
    assert threads[tid].phase.Finished? || threads[j].phase.Finished?;
  }

  /** A gateway that serves its requests one at a time, and never uses a key's id again, is orderly for every key. */
  lemma OneAtATimeIsOrderly(c: Config, states: seq<State>, actions: seq<Action>, id: int)
    requires Trace(c, states, actions) && OneAtATime(states)
    requires forall i :: 0 <= i < |actions| && Adds(states[i], actions[i], id) ==> Outcomes(states, actions, i, id) == []
    ensures Orderly(states, actions, id)
  {
    forall i | 0 <= i < |actions| ensures InTurn(states[i], actions[i], states[i + 1], id) {
      var s, a := states[i], actions[i];
      if a.Advance? && a.tid < |s.threads| && !s.threads[a.tid].phase.Finished? {
        forall j | 0 <= j < |s.threads| && j != a.tid ensures s.threads[j].phase.Finished? {
          OthersFinished(states, i, a.tid, j);
        }
      }
    }
  }
}
