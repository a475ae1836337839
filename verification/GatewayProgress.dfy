/**
 Progress: no thread is ever stuck, every step of a thread that does anything
 brings it nearer its end, and so every reachable state can be run to a quiet one.
 */
module GatewayProgress {
  import opened Base
  import opened Gateway
  import opened GatewayAccounting
  import opened GatewaySequential
  import opened Handler
  import opened Prices
  import opened Sorting
  import opened Sums
  import opened Tables

  /** How many calls a thread at this phase has before it, at most. */
  function Remaining(p: Phase): nat {
    match p
    case Authenticate => 28
    case RuleLoop => 27
    case Estimate => 26
    case CheckBalance(_) => 25
    case UserLimit => 24
    case Choose => 23
    case ChannelLimit => 22
    case Forward => 21
    case RecordFailure(_) => 9
    case CountFailure => 1
    case RecordSuccess => 20
    case Settle => 12
    case Debit => 11
    case AddUsage => 3
    case CountSuccess => 2
    case CountCharge => 1
    case Reload(tablesRead, next) => Remaining(next) + 1 + if tablesRead < 6 then 6 - tablesRead else 0
    case Finished(_) => 0
  }

  lemma FollowingIsNearer(th: Thread, p: Phase)
    requires Follows(th, p)
    ensures Remaining(p) < Remaining(th.phase)
  {
  }

  /** Whatever its inputs, a step leaves its thread as it is or brings it nearer its end. */
  lemma StepIsNearer(c: Config, s: Shared, th: Thread, input: Input)
    ensures var after := NextThread(c, s, th, input); after == th || Remaining(after.phase) < Remaining(th.phase)
  {
    StepMoves(c, s, th, input);
    if NextThread(c, s, th, input) != th {
      FollowingIsNearer(th, NextThread(c, s, th, input).phase);
    }
  }

  // ---- A thread always has a step ----

  /** The calls that need an account, and those that need a provider and a key. */
  predicate NeedsAccount(p: Phase) { p.RuleLoop? || p.Estimate? || p.CheckBalance? || p.UserLimit? }

  predicate NeedsKey(p: Phase) {
    var site := Site(p);
    site.ChannelLimit? || site.Forward? || site.RecordFailure? || site.RecordSuccess? || site.Settle? || site.Debit? || site.AddUsage?
  }

  /** A thread has what its calls need. */
  predicate Equipped(th: Thread) {
    && ReturnsFromReload(th.phase)
    && (NeedsAccount(th.phase) ==> th.account.Some?)
    && (NeedsKey(th.phase) ==> Chosen(th))
  }

  lemma KeepsAccount(c: Config, s: Shared, th: Thread, input: Input)
    requires !th.phase.Authenticate?
    ensures NextThread(c, s, th, input).account == th.account
  {
    if th.phase.RuleLoop? {
      assert NextThread(c, s, th, input) == AfterRules(c, s, th);
    } else if th.phase.Reload? {
      assert NextThread(c, s, th, input) == AfterReload(s, th, th.phase.tablesRead, th.phase.next);
    }
  }

  lemma MoveKeepsEquipped(th: Thread, after: Thread)
    requires Moves(th, after) && Equipped(th) && !th.phase.Authenticate? && !th.phase.Choose?
    requires after.account == th.account && after.key == th.key && after.provider == th.provider
    ensures Equipped(after)
  {
  }

  lemma StepKeepsEquipped(c: Config, s: Shared, th: Thread, input: Input)
    requires Equipped(th)
    ensures Equipped(NextThread(c, s, th, input))
  {
    if th.phase.Authenticate? {
      assert NextThread(c, s, th, input) == AfterAuthenticate(s, th, input);
    } else if th.phase.Choose? {
      assert NextThread(c, s, th, input) == AfterChoose(s, th, input);
    } else {
      StepMoves(c, s, th, input);
      KeepsAccount(c, s, th, input);
      if th.phase.Reload? {
        ReloadReads(s, th, th.phase.tablesRead, th.phase.next);
      } else {
        KeepsKey(c, s, th, input);
      }
      MoveKeepsEquipped(th, NextThread(c, s, th, input));
    }
  }

  /** The enabled price rules, longest prefixes first: an answer the query may give. */
  function PriceListing(rows: seq<PriceRule>): seq<PriceRule> {
    Sort(Filter(rows, (r: PriceRule) => r.enabled), LongerFirst)
  }

  predicate LongerFirst(a: PriceRule, b: PriceRule) { |a.modelPrefix| >= |b.modelPrefix| }

  lemma PriceListingLists(rows: seq<PriceRule>)
    ensures Listing(PriceListing(rows), rows)
  {
    var enabled := Filter(rows, (r: PriceRule) => r.enabled);
    SortPermutes(enabled, LongerFirst);
    SortSorts(enabled, LongerFirst);
  }

  /** Inputs that move any thread on: no provider is chosen and the upstream fails. */
  function Onward(s: Shared): Input { Input(0, true, PriceListing(s.db.prices), None, 1.0, Failure("")) }

  lemma OnwardMoves(c: Config, s: Shared, th: Thread)
    requires Equipped(th) && !th.phase.Finished?
    ensures CanStep(c, s, th, Onward(s)) && NextThread(c, s, th, Onward(s)) != th
  {
    PriceListingLists(s.db.prices);
    StepMoves(c, s, th, Onward(s));
    if th.phase.RuleLoop? {
      assert NextThread(c, s, th, Onward(s)) == AfterRules(c, s, th);
    } else if th.phase.Reload? {
      assert NextThread(c, s, th, Onward(s)) == AfterReload(s, th, th.phase.tablesRead, th.phase.next);
      assert th.phase.next != th.phase;
    }
  }

  /** An unfinished thread that has what it needs can take a step that brings it nearer its end. */
  lemma CanProceed(c: Config, s: Shared, th: Thread)
    requires Equipped(th) && !th.phase.Finished?
    ensures exists input :: CanStep(c, s, th, input) && Remaining(NextThread(c, s, th, input).phase) < Remaining(th.phase)
  {
    OnwardMoves(c, s, th);
    StepIsNearer(c, s, th, Onward(s));
  }

  // ---- Every reachable state ----

  predicate AllEquipped(s: State) {
    forall i :: 0 <= i < |s.threads| ==> Equipped(s.threads[i])
  }

  lemma ActionKeepsEquipped(c: Config, s: State, a: Action)
    requires AllEquipped(s)
    ensures AllEquipped(Next(c, s, a))
  {
    if a.Advance? && a.tid < |s.threads| {
      StepKeepsEquipped(c, s.shared, s.threads[a.tid], a.input);
    }
  }

  lemma {:induction false} EveryStateEquipped(c: Config, states: seq<State>, actions: seq<Action>)
    requires Trace(c, states, actions) && Fresh(states[0])
    ensures AllEquipped(states[|actions|])
  {
    if actions != [] {
      var n := |actions| - 1;
      TracePrefix(c, states, actions);
      EveryStateEquipped(c, states[..n + 1], actions[..n]);
      ActionKeepsEquipped(c, states[n], actions[n]);
    }
  }

  /** In every reachable state, every unfinished thread can take a step that brings it nearer its end. */
  lemma NobodyIsStuck(c: Config, states: seq<State>, actions: seq<Action>, tid: nat)
    requires Trace(c, states, actions) && Fresh(states[0])
    requires var s := states[|actions|]; tid < |s.threads| && !s.threads[tid].phase.Finished?
    ensures var s := states[|actions|];
            exists input :: CanStep(c, s.shared, s.threads[tid], input)
              && Remaining(NextThread(c, s.shared, s.threads[tid], input).phase) < Remaining(s.threads[tid].phase)
  {
    EveryStateEquipped(c, states, actions);
    CanProceed(c, states[|actions|].shared, states[|actions|].threads[tid]);
  }

  function RemainingOf(th: Thread): int { Remaining(th.phase) }

  lemma {:induction false} RemainingTotal(threads: seq<Thread>)
    ensures Sum(threads, RemainingOf) >= 0
  {
    if threads != [] {
      RemainingTotal(threads[1..]);
    }
  }

  /** Some quiet state can be reached from `from`. */
  ghost predicate QuietAhead(c: Config, from: State) {
    exists quiet :: RunsTo(c, from, quiet) && AllFinished(quiet)
  }

  lemma {:induction false} RunToQuiet(c: Config, from: State, s: State)
    requires RunsTo(c, from, s) && AllEquipped(s)
    ensures QuietAhead(c, from)
    decreases Sum(s.threads, RemainingOf)
  {
    RemainingTotal(s.threads);
    if tid: nat :| tid < |s.threads| && !s.threads[tid].phase.Finished? {
      var a := Advance(tid, Onward(s.shared));
      var next := Next(c, s, a);
      OnwardMoves(c, s.shared, s.threads[tid]);
      StepIsNearer(c, s.shared, s.threads[tid], Onward(s.shared));
      SumUpdate(s.threads, tid, next.threads[tid], RemainingOf);
      ActionKeepsEquipped(c, s, a);
      RunExtends(c, from, s, a);
      RunToQuiet(c, from, next);
    } else {
      assert AllFinished(s);
    }
  }

  /** Every reachable state can be run to one in which every thread has finished. */
  lemma QuietIsAlwaysAhead(c: Config, states: seq<State>, actions: seq<Action>)
    requires Trace(c, states, actions) && Fresh(states[0])
    ensures QuietAhead(c, states[|actions|])
  {
    var s := states[|actions|];
    EveryStateEquipped(c, states, actions);
    assert Trace(c, [s], []);
    assert RunsTo(c, s, s);
    RunToQuiet(c, s, s);
  }
}
