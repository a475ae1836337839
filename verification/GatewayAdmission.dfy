/**
 Admission over every interleaving: a request that is forwarded has passed every
 gate of the handler, in order, each against the tables, the snapshot or the
 windows as they stood at that moment.
 */
module GatewayAdmission {
  import opened Base
  import opened Billing
  import opened Conditions
  import opened Gateway
  import opened Limiter
  import opened Prices
  import opened Rules
  import opened Sums
  import Selection

  /** The gates, in the handler's order; a request knows how many it has passed. */
  const AUTHENTICATED: nat := 1
  const RULED: nat := 2
  const PRICED: nat := 3
  const AFFORDED: nat := 4
  const USER_LIMITED: nat := 5
  const CHOSEN: nat := 6
  const CHANNEL_LIMITED: nat := 7

  /** How many gates lie behind a request at this call. */
  function Gates(p: Phase): nat {
    match Site(p)
    case Authenticate => 0
    case RuleLoop => AUTHENTICATED
    case Estimate => RULED
    case CheckBalance(_) => PRICED
    case UserLimit => AFFORDED
    case Choose => USER_LIMITED
    case ChannelLimit => CHOSEN
    case Reload(_, _) => 0
    case Finished(end) => if end.Served? || end.Failed? then CHANNEL_LIMITED else 0
    case _ => CHANNEL_LIMITED
  }

  // ---- What each gate asks, of the state it is passed in ----

  /** The token is an enabled API key of the published snapshot, of an enabled tenant, allowed to use the model. */
  predicate KeyAccepted(s: Shared, input: Input, th: Thread) {
    && input.tenantEnabled
    && th.token in s.snapshot.keys && s.snapshot.keys[th.token].enabled
    && th.account == Some(s.snapshot.keys[th.token])
    && Selection.Supports(s.snapshot.keys[th.token].allowedModels, th.model)
  }

  /** No published rule denies; the forced provider and the estimate are the rules' and the account's. */
  predicate RulesAccept(c: Config, s: Shared, th: Thread) {
    var ctx := Ctx(th.token, th.model, th.path);
    && !Denied(s.snapshot.rules, ctx, c.engine)
    && th.forced == ForcedBy(s.snapshot.rules, ctx, c.engine)
    && th.account.Some?
    && th.estimate == EstimatedTokens(th.bodyTokens, th.account.value.rateMultiplier * Product(s.snapshot.rules, Factor(ctx, c.engine)))
  }

  /** The cost is the estimate's, at a price the price table gives. */
  predicate CostKnown(c: Config, s: Shared, input: Input, th: Thread) {
    c.billing ==>
      && Listing(input.priceListing, s.db.prices)
      && th.checked == Charge(th.estimate, FirstPrice(input.priceListing, th.model, c.defaultPrice))
  }

  predicate UserAdmitted(s: Shared, input: Input, th: Thread) {
    th.account.Some? && Admits(s.users, UserCall(th, th.account.value, input.now))
  }

  /** The pair is an enabled provider supporting the model, the forced one if any, and a live key of its own. */
  predicate PairOffered(s: Shared, input: Input, th: Thread) {
    && input.choice.Some?
    && var (name, index) := input.choice.value;
       && Offered(s.snapshot, th, name, index, input.now)
       && th.provider == Some(s.snapshot.providers[name])
       && th.key == Some(s.snapshot.providers[name].keys[index])
  }

  predicate ChannelAdmitted(s: Shared, input: Input, th: Thread) {
    Chosen(th) && ChannelAdmits(s, th, input)
  }

  /** The action takes thread `tid` through gate `g`, with the values the request `th` ends up with. */
  predicate Lets(c: Config, s: State, a: Action, tid: nat, th: Thread, g: nat) {
    && a.Advance? && a.tid == tid && tid < |s.threads|
    && var phase := s.threads[tid].phase;
       if g == AUTHENTICATED then phase.Authenticate? && KeyAccepted(s.shared, a.input, th)
       else if g == RULED then phase.RuleLoop? && RulesAccept(c, s.shared, th)
       else if g == PRICED then phase.Estimate? && CostKnown(c, s.shared, a.input, th)
       else if g == AFFORDED then phase.CheckBalance? && CanDeduct(s.shared.db, th.token, th.checked)
       else if g == USER_LIMITED then phase.UserLimit? && UserAdmitted(s.shared, a.input, th)
       else if g == CHOSEN then phase.Choose? && PairOffered(s.shared, a.input, th)
       else g == CHANNEL_LIMITED && phase.ChannelLimit? && ChannelAdmitted(s.shared, a.input, th)
  }

  /** Only a positive cost is checked against the balance. */
  predicate Checks(c: Config, th: Thread) { c.billing && th.checked > 0 }

  /** In the first n actions the request has passed the first g gates, one after another. */
  ghost predicate Passed(c: Config, states: seq<State>, actions: seq<Action>, tid: nat, th: Thread, n: nat, g: nat)
    requires n <= |actions| < |states|
    decreases g
  {
    if g == 0 then true
    else if g == AFFORDED && !Checks(c, th) then Passed(c, states, actions, tid, th, n, g - 1)
    else exists i :: 0 <= i < n && Lets(c, states[i], actions[i], tid, th, g) && Passed(c, states, actions, tid, th, i, g - 1)
  }

  // ---- What a request carries past a gate does not change ----

  /** The two agree on everything the first g gates ask about. */
  predicate SameUpTo(a: Thread, b: Thread, g: nat) {
    && a.token == b.token && a.model == b.model && a.path == b.path && a.bodyTokens == b.bodyTokens
    && (g >= AUTHENTICATED ==> a.account == b.account)
    && (g >= RULED ==> a.forced == b.forced && a.estimate == b.estimate)
    && (g >= PRICED ==> a.checked == b.checked)
    && (g >= CHOSEN ==> a.provider == b.provider && a.key == b.key)
  }

  lemma LetsSame(c: Config, s: State, a: Action, tid: nat, th: Thread, after: Thread, g: nat)
    requires Lets(c, s, a, tid, th, g) && SameUpTo(th, after, g)
    ensures Lets(c, s, a, tid, after, g)
  {
  }

  lemma PassedAt(c: Config, states: seq<State>, actions: seq<Action>, tid: nat, th: Thread, i: nat, n: nat, g: nat)
    requires i < n <= |actions| < |states| && g > 0
    requires Lets(c, states[i], actions[i], tid, th, g) && Passed(c, states, actions, tid, th, i, g - 1)
    ensures Passed(c, states, actions, tid, th, n, g) || (g == AFFORDED && !Checks(c, th))
  {
  }

  /** The action at which the last of the gates was passed. */
  lemma LastGate(c: Config, states: seq<State>, actions: seq<Action>, tid: nat, th: Thread, n: nat, g: nat) returns (i: nat)
    requires n <= |actions| < |states| && g > 0 && !(g == AFFORDED && !Checks(c, th))
    requires Passed(c, states, actions, tid, th, n, g)
    ensures i < n && Lets(c, states[i], actions[i], tid, th, g) && Passed(c, states, actions, tid, th, i, g - 1)
  {
    i :| 0 <= i < n && Lets(c, states[i], actions[i], tid, th, g) && Passed(c, states, actions, tid, th, i, g - 1);
  }

  /** What has been passed stays passed, later in the run and later in the request. */
  lemma {:induction false} PassedStays(c: Config, states: seq<State>, actions: seq<Action>, tid: nat,
                                       th: Thread, after: Thread, n: nat, m: nat, g: nat)
    requires n <= m <= |actions| < |states| && SameUpTo(th, after, g)
    requires Passed(c, states, actions, tid, th, n, g)
    ensures Passed(c, states, actions, tid, after, m, g)
    decreases g
  {
    if g == 0 {
    } else if g == AFFORDED && !Checks(c, th) {
      PassedStays(c, states, actions, tid, th, after, n, m, g - 1);
    } else {
      var i := LastGate(c, states, actions, tid, th, n, g);
      LetsSame(c, states[i], actions[i], tid, th, after, g);
      PassedStays(c, states, actions, tid, th, after, i, i, g - 1);
      PassedAt(c, states, actions, tid, after, i, m, g);
    }
  }

  /** The gates passed say nothing about actions beyond them. */
  lemma {:induction false} PassedInLonger(c: Config, states: seq<State>, actions: seq<Action>, tid: nat, th: Thread, n: nat, g: nat)
    requires actions != [] && n < |actions| && |states| == |actions| + 1
    requires Passed(c, states[..|actions|], actions[..|actions| - 1], tid, th, n, g)
    ensures Passed(c, states, actions, tid, th, n, g)
    decreases g
  {
    var before, earlier := states[..|actions|], actions[..|actions| - 1];
    if g == 0 {
    } else if g == AFFORDED && !Checks(c, th) {
      PassedInLonger(c, states, actions, tid, th, n, g - 1);
    } else {
      var i :| 0 <= i < n && Lets(c, before[i], earlier[i], tid, th, g) && Passed(c, before, earlier, tid, th, i, g - 1);
      PassedInLonger(c, states, actions, tid, th, i, g - 1);
    }
  }

  // ---- One step ----

  /** What a request's own phase says of its locals. */
  predicate Ready(c: Config, th: Thread) {
    && ReturnsFromReload(th.phase)
    && (th.phase.Authenticate? || th.phase.RuleLoop? || th.phase.Estimate? ==> th.checked == 0)
    && (th.phase.RuleLoop? ==> th.account.Some? && th.multiplier == th.account.value.rateMultiplier)
    && (th.phase.CheckBalance? ==> c.billing && th.checked == th.phase.cost)
  }

  /** A step goes through the gate it stands at, or is turned away, or stays between the same two gates. */
  predicate GoesThrough(c: Config, s: State, a: Action, tid: nat, th: Thread, after: Thread) {
    var g, g' := Gates(th.phase), Gates(after.phase);
    && SameUpTo(th, after, g)
    && (|| g' == g
        || g' == 0
        || (g' == g + 1 && Lets(c, s, a, tid, after, g'))
        || (g == RULED && g' == AFFORDED && !Checks(c, after) && Lets(c, s, a, tid, after, PRICED)))
  }

  lemma KeyGate(c: Config, s: State, tid: nat, input: Input)
    requires tid < |s.threads| && Ready(c, s.threads[tid]) && s.threads[tid].phase.Authenticate?
    ensures var after := AfterAuthenticate(s.shared, s.threads[tid], input);
            GoesThrough(c, s, Advance(tid, input), tid, s.threads[tid], after) && Ready(c, after)
  {
  }

  lemma RulesGate(c: Config, s: State, tid: nat, input: Input)
    requires tid < |s.threads| && Ready(c, s.threads[tid]) && s.threads[tid].phase.RuleLoop?
    ensures var after := AfterRules(c, s.shared, s.threads[tid]);
            GoesThrough(c, s, Advance(tid, input), tid, s.threads[tid], after) && Ready(c, after)
  {
  }

  lemma MoneyGates(c: Config, s: State, tid: nat, input: Input)
    requires tid < |s.threads| && Ready(c, s.threads[tid]) && CanStep(c, s.shared, s.threads[tid], input)
    requires s.threads[tid].phase.Estimate? || s.threads[tid].phase.CheckBalance?
    ensures var after := NextThread(c, s.shared, s.threads[tid], input);
            GoesThrough(c, s, Advance(tid, input), tid, s.threads[tid], after) && Ready(c, after)
  {
    var th := s.threads[tid];
    if th.phase.Estimate? {
      assert NextThread(c, s.shared, th, input) == AfterEstimate(c, th, input);
    }
  }

  lemma LimiterGates(c: Config, s: State, tid: nat, input: Input)
    requires tid < |s.threads| && Ready(c, s.threads[tid])
    requires s.threads[tid].phase.UserLimit? || s.threads[tid].phase.ChannelLimit?
    ensures var after := NextThread(c, s.shared, s.threads[tid], input);
            GoesThrough(c, s, Advance(tid, input), tid, s.threads[tid], after) && Ready(c, after)
  {
  }

  lemma ChoiceGate(c: Config, s: State, tid: nat, input: Input)
    requires tid < |s.threads| && Ready(c, s.threads[tid]) && s.threads[tid].phase.Choose?
    ensures var after := AfterChoose(s.shared, s.threads[tid], input);
            GoesThrough(c, s, Advance(tid, input), tid, s.threads[tid], after) && Ready(c, after)
  {
  }

  predicate StaysBehind(c: Config, th: Thread, after: Thread) {
    SameUpTo(th, after, Gates(th.phase)) && Gates(after.phase) == Gates(th.phase) && Ready(c, after)
  }

  lemma ReloadStaysBehind(c: Config, s: Shared, th: Thread, tablesRead: nat, next: Phase)
    requires Ready(c, th) && th.phase == Reload(tablesRead, next)
    ensures StaysBehind(c, th, AfterReload(s, th, tablesRead, next))
  {
  }

  lemma SettleStaysBehind(c: Config, th: Thread, input: Input)
    requires Ready(c, th) && th.phase.Settle?
    ensures StaysBehind(c, th, AfterSettle(c, th, input))
  {
  }

  /** Behind the last gate, a request stays there. */
  lemma BehindTheGates(c: Config, s: Shared, th: Thread, input: Input)
    requires Ready(c, th) && (Gates(th.phase) == CHANNEL_LIMITED || th.phase.Reload? || th.phase.Finished?)
    ensures StaysBehind(c, th, NextThread(c, s, th, input))
  {
    match th.phase
    case Settle => SettleStaysBehind(c, th, input);
    case Reload(tablesRead, next) => ReloadStaysBehind(c, s, th, tablesRead, next);
    case _ =>
  }

  lemma StepGoesThrough(c: Config, s: State, tid: nat, input: Input)
    requires tid < |s.threads| && Ready(c, s.threads[tid]) && CanStep(c, s.shared, s.threads[tid], input)
    ensures var after := NextThread(c, s.shared, s.threads[tid], input);
            GoesThrough(c, s, Advance(tid, input), tid, s.threads[tid], after) && Ready(c, after)
  {
    match s.threads[tid].phase
    case Authenticate => KeyGate(c, s, tid, input);
    case RuleLoop => RulesGate(c, s, tid, input);
    case Estimate => MoneyGates(c, s, tid, input);
    case CheckBalance(_) => MoneyGates(c, s, tid, input);
    case UserLimit => LimiterGates(c, s, tid, input);
    case Choose => ChoiceGate(c, s, tid, input);
    case ChannelLimit => LimiterGates(c, s, tid, input);
    case _ => BehindTheGates(c, s.shared, s.threads[tid], input);
  }

  // ---- Every state ----

  /** Every thread has passed the gates that lie behind it. */
  ghost predicate Vetted(c: Config, states: seq<State>, actions: seq<Action>, tid: nat)
    requires |states| == |actions| + 1 && tid < |states[|actions|].threads|
  {
    var th := states[|actions|].threads[tid];
    Ready(c, th) && Passed(c, states, actions, tid, th, |actions|, Gates(th.phase))
  }

  /** Going through one gate adds it to those passed. */
  lemma PassesOne(c: Config, states: seq<State>, actions: seq<Action>, tid: nat, th: Thread, after: Thread)
    requires actions != [] && |states| == |actions| + 1
    requires Passed(c, states, actions, tid, th, |actions| - 1, Gates(th.phase))
    requires GoesThrough(c, states[|actions| - 1], actions[|actions| - 1], tid, th, after)
    ensures Passed(c, states, actions, tid, after, |actions|, Gates(after.phase))
  {
    var n, g, g' := |actions| - 1, Gates(th.phase), Gates(after.phase);
    if g' == g {
      PassedStays(c, states, actions, tid, th, after, n, n + 1, g);
    } else if g' == g + 1 && Lets(c, states[n], actions[n], tid, after, g') {
      PassedStays(c, states, actions, tid, th, after, n, n, g);
      if g' == AFFORDED && !Checks(c, after) {
        PassedStays(c, states, actions, tid, after, after, n, n + 1, g);
      }
    } else if g' != 0 {
      PassedStays(c, states, actions, tid, th, after, n, n, g);
      assert Passed(c, states, actions, tid, after, n + 1, PRICED);
    }
  }

  lemma {:induction false} EveryRequestVetted(c: Config, states: seq<State>, actions: seq<Action>, tid: nat)
    requires Trace(c, states, actions) && Fresh(states[0]) && tid < |states[|actions|].threads|
    ensures Vetted(c, states, actions, tid)
  {
    if actions != [] {
      var n := |actions| - 1;
      TracePrefix(c, states, actions);
      var s, a := states[n], actions[n];
      var after := states[n + 1].threads[tid];
      if tid < |s.threads| {
        var th := s.threads[tid];
        EveryRequestVetted(c, states[..n + 1], actions[..n], tid);
        PassedInLonger(c, states, actions, tid, th, n, Gates(th.phase));
        if after != th {
          AdvancedByOwnStep(c, s, a, tid);
          StepGoesThrough(c, s, tid, a.input);
          PassesOne(c, states, actions, tid, th, after);
        } else {
          PassedStays(c, states, actions, tid, th, th, n, n + 1, Gates(th.phase));
        }
      }
    }
  }

  lemma AdvancedByOwnStep(c: Config, s: State, a: Action, tid: nat)
    requires tid < |s.threads| && Next(c, s, a).threads[tid] != s.threads[tid]
    ensures a.Advance? && a.tid == tid && CanStep(c, s.shared, s.threads[tid], a.input)
    ensures Next(c, s, a).threads[tid] == NextThread(c, s.shared, s.threads[tid], a.input)
  {
  }

  /**
   In every run, a request at the upstream or anywhere past it passed all the gates
   before, in order: its key accepted, no rule denying, its cost priced and the
   balance found to cover it, the user limiter's and the channel limiter's
   admission, and a pair on offer.
   */
  lemma ForwardedPassedEveryGate(c: Config, states: seq<State>, actions: seq<Action>, tid: nat)
    requires Trace(c, states, actions) && Fresh(states[0]) && tid < |states[|actions|].threads|
    requires Gates(states[|actions|].threads[tid].phase) == CHANNEL_LIMITED
    ensures Passed(c, states, actions, tid, states[|actions|].threads[tid], |actions|, CHANNEL_LIMITED)
  {
    EveryRequestVetted(c, states, actions, tid);
  }
}
