/** Rate limits end to end: what the limiters' window bounds mean for the requests of a run. */
module GatewayLimits {
  import opened Clock
  import opened Gateway
  import opened Limiter
  import opened Text

  // ---- The names requests are limited under ----

  function UserKey(key: string): string { "user:" + key }

  function ChannelKey(provider: string, alias: string): string { "provider:" + provider + ":" + alias }

  /** Some aliases, none of them blank, give the two providers one channel. */
  ghost predicate ShareAChannel(p: string, q: string) {
    exists a, b :: !Blank(a) && !Blank(b) && ChannelKey(p, a) == ChannelKey(q, b)
  }

  lemma ChannelKeyText(provider: string, alias: string)
    ensures ChannelKey(provider, alias) == "provider:" + (provider + ":" + alias)
    ensures ChannelKey(provider, alias)[9..] == provider + ":" + alias
    ensures provider + ":" <= ChannelKey(provider, alias)[9..]
  {
  }

  /** Prefixes of one text are prefixes of each other. */
  lemma PrefixesOfOne(p: string, q: string, text: string)
    requires p <= text && q <= text
    ensures p <= q || q <= p
  {
    assert p == text[..|p|] && q == text[..|q|];
  }

  lemma SharedWhenPrefix(p: string, q: string)
    requires p + ":" <= q + ":"
    ensures ShareAChannel(p, q)
  {
    var rest := (q + ":")[|p| + 1..];
    assert q + ":" == p + ":" + rest;
    ChannelKeyText(p, rest + "x");
    ChannelKeyText(q, "x");
    assert p + ":" + (rest + "x") == q + ":" + "x";
    assert (rest + "x")[|rest|] == 'x' && "x"[0] == 'x';
    assert !Blank(rest + "x") && !Blank("x");
    assert ChannelKey(p, rest + "x") == ChannelKey(q, "x");
  }

  /** Exactly which provider names can meet in one channel: one of them, with a colon after it, begins the other. */
  lemma ProvidersShareAChannelExactly(p: string, q: string)
    ensures ShareAChannel(p, q) <==> p + ":" <= q + ":" || q + ":" <= p + ":"
  {
    if a, b :| !Blank(a) && !Blank(b) && ChannelKey(p, a) == ChannelKey(q, b) {
      ChannelKeyText(p, a);
      ChannelKeyText(q, b);
      PrefixesOfOne(p + ":", q + ":", ChannelKey(p, a)[9..]);
    }
    if p + ":" <= q + ":" {
      SharedWhenPrefix(p, q);
    }
    if q + ":" <= p + ":" {
      SharedWhenPrefix(q, p);
      SharingIsMutual(q, p);
    }
  }

  lemma SharingIsMutual(p: string, q: string)
    requires ShareAChannel(p, q)
    ensures ShareAChannel(q, p)
  {
    var a, b :| !Blank(a) && !Blank(b) && ChannelKey(p, a) == ChannelKey(q, b);
    assert ChannelKey(q, b) == ChannelKey(p, a);
  }

  // ---- The two limiters a request passes ----

  datatype Door = Users | Channels

  /** The action is a request's call of the limiter. */
  predicate Asks(door: Door, s: State, a: Action) {
    && a.Advance? && a.tid < |s.threads|
    && var th := s.threads[a.tid];
       if door.Users? then th.phase.UserLimit? && th.account.Some? else th.phase.ChannelLimit? && Chosen(th)
  }

  function AskedCall(door: Door, s: State, a: Action): Call
    requires Asks(door, s, a)
  {
    var th := s.threads[a.tid];
    if door.Users? then UserCall(th, th.account.value, a.input.now)
    else ChannelCall(th, th.provider.value, th.key.value, a.input.now, a.input.scale)
  }

  function WindowsAt(door: Door, s: Shared): Windows { if door.Users? then s.users else s.channels }

  /** The limiter has let the request through. */
  predicate LetThrough(door: Door, th: Thread) { if door.Users? then th.phase.Choose? else th.phase.Forward? }

  /** The limiter's calls in the first n actions of a run. */
  function CallsAt(door: Door, states: seq<State>, actions: seq<Action>, n: nat): seq<Call>
    requires n <= |actions| < |states|
  {
    if n == 0 then []
    else
      CallsAt(door, states, actions, n - 1)
      + if Asks(door, states[n - 1], actions[n - 1]) then [AskedCall(door, states[n - 1], actions[n - 1])] else []
  }

  /** What one action adds to the amount that requests limited under `key` pass the limiter with, at stamps in [lo, hi). */
  function Passes(door: Door, meter: Meter, s: State, a: Action, after: State, key: string, lo: Time, hi: Time): int {
    if Asks(door, s, a) && AskedCall(door, s, a).key == key && lo <= a.input.now < hi
       && a.tid < |after.threads| && LetThrough(door, after.threads[a.tid])
    then meter.Delta(AskedCall(door, s, a)) else 0
  }

  /** The requests (or their estimated tokens) limited under `key` that pass at stamps in [lo, hi). */
  function Passed(door: Door, meter: Meter, states: seq<State>, actions: seq<Action>, n: nat, key: string, lo: Time, hi: Time): int
    requires n <= |actions| < |states|
  {
    if n == 0 then 0
    else
      Passed(door, meter, states, actions, n - 1, key, lo, hi)
      + Passes(door, meter, states[n - 1], actions[n - 1], states[n], key, lo, hi)
  }

  /** Requests under the key are limited: each call sets a positive limit of at most `cap`. */
  predicate LimitedTo(door: Door, meter: Meter, s: State, a: Action, key: string, cap: int) {
    Asks(door, s, a) && AskedCall(door, s, a).key == key ==> 0 < meter.Limit(AskedCall(door, s, a)) <= cap
  }

  lemma AskedStep(c: Config, s: State, a: Action, door: Door)
    requires Asks(door, s, a)
    ensures var after, call := Next(c, s, a), AskedCall(door, s, a);
      && WindowsAt(door, after.shared) == After(WindowsAt(door, s.shared), call)
      && a.tid < |after.threads|
      && (LetThrough(door, after.threads[a.tid]) <==> Admits(WindowsAt(door, s.shared), call))
  {
  }

  lemma OtherStep(c: Config, s: State, a: Action, door: Door)
    requires !Asks(door, s, a)
    ensures WindowsAt(door, Next(c, s, a).shared) == WindowsAt(door, s.shared)
  {
  }

  lemma StepUsesLimiter(c: Config, s: State, a: Action, door: Door, key: string, lo: Time, hi: Time, meter: Meter, cap: int)
    requires LimitedTo(door, meter, s, a, key, cap)
    ensures var after := Next(c, s, a);
      if Asks(door, s, a) then
        && WindowsAt(door, after.shared) == After(WindowsAt(door, s.shared), AskedCall(door, s, a))
        && Passes(door, meter, s, a, after, key, lo, hi) == Share(meter, WindowsAt(door, s.shared), AskedCall(door, s, a), key, lo, hi)
      else WindowsAt(door, after.shared) == WindowsAt(door, s.shared) && Passes(door, meter, s, a, after, key, lo, hi) == 0
  {
    if Asks(door, s, a) {
      AskedStep(c, s, a, door);
    } else {
      OtherStep(c, s, a, door);
    }
  }

  /** The windows are those of the calls, and the amount passed is what the limiter admitted of them. */
  predicate Matches(meter: Meter, windows: Windows, passed: int, calls: seq<Call>, key: string, lo: Time, hi: Time) {
    windows == Run(calls) && passed == Admitted(meter, calls, key, lo, hi)
  }

  lemma OneMoreCall(meter: Meter, windows: Windows, passed: int, calls: seq<Call>, call: Call, key: string, lo: Time, hi: Time)
    requires Matches(meter, windows, passed, calls, key, lo, hi)
    ensures Matches(meter, After(windows, call), passed + Share(meter, windows, call, key, lo, hi), calls + [call], key, lo, hi)
  {
    RunSnoc(calls, call);
    AdmittedSnoc(meter, calls, call, key, lo, hi);
  }

  lemma StepMatches(c: Config, s: State, a: Action, door: Door, meter: Meter, passed: int, calls: seq<Call>, key: string, cap: int,
                    lo: Time, hi: Time)
    requires Matches(meter, WindowsAt(door, s.shared), passed, calls, key, lo, hi) && LimitedTo(door, meter, s, a, key, cap)
    ensures Matches(meter, WindowsAt(door, Next(c, s, a).shared), passed + Passes(door, meter, s, a, Next(c, s, a), key, lo, hi),
                    calls + if Asks(door, s, a) then [AskedCall(door, s, a)] else [], key, lo, hi)
  {
    StepUsesLimiter(c, s, a, door, key, lo, hi, meter, cap);
    if Asks(door, s, a) {
      OneMoreCall(meter, WindowsAt(door, s.shared), passed, calls, AskedCall(door, s, a), key, lo, hi);
    } else {
      assert calls + [] == calls;
    }
  }

  /** The limiter's windows are those of its calls, limited or not. */
  lemma {:induction false} WindowsOfRun(c: Config, states: seq<State>, actions: seq<Action>, n: nat, door: Door)
    requires Trace(c, states, actions) && n <= |actions| && WindowsAt(door, states[0].shared) == map[]
    ensures WindowsAt(door, states[n].shared) == Run(CallsAt(door, states, actions, n))
  {
    if n > 0 {
      WindowsOfRun(c, states, actions, n - 1, door);
      var s, a := states[n - 1], actions[n - 1];
      assert states[n - 1 + 1] == Next(c, s, a);
      if Asks(door, s, a) {
        AskedStep(c, s, a, door);
        RunSnoc(CallsAt(door, states, actions, n - 1), AskedCall(door, s, a));
      } else {
        OtherStep(c, s, a, door);
        assert CallsAt(door, states, actions, n) == CallsAt(door, states, actions, n - 1);
      }
    }
  }

  lemma {:induction false} RunMatches(c: Config, states: seq<State>, actions: seq<Action>, n: nat, door: Door,
                                      meter: Meter, key: string, cap: int, lo: Time, hi: Time)
    requires Trace(c, states, actions) && n <= |actions| && WindowsAt(door, states[0].shared) == map[]
    requires forall i :: 0 <= i < |actions| ==> LimitedTo(door, meter, states[i], actions[i], key, cap)
    ensures Matches(meter, WindowsAt(door, states[n].shared), Passed(door, meter, states, actions, n, key, lo, hi),
                    CallsAt(door, states, actions, n), key, lo, hi)
  {
    if n > 0 {
      RunMatches(c, states, actions, n - 1, door, meter, key, cap, lo, hi);
      assert states[n - 1 + 1] == Next(c, states[n - 1], actions[n - 1]);
      StepMatches(c, states[n - 1], actions[n - 1], door, meter, Passed(door, meter, states, actions, n - 1, key, lo, hi),
                  CallsAt(door, states, actions, n - 1), key, cap, lo, hi);
    }
  }

  /** What passes under a key whose calls are all limited is what the limiter admits of its calls. */
  lemma PassedIsAdmitted(c: Config, states: seq<State>, actions: seq<Action>, n: nat, door: Door,
                         meter: Meter, key: string, cap: int, lo: Time, hi: Time)
    requires Trace(c, states, actions) && n <= |actions| && WindowsAt(door, states[0].shared) == map[]
    requires forall i :: 0 <= i < |actions| ==> LimitedTo(door, meter, states[i], actions[i], key, cap)
    ensures Passed(door, meter, states, actions, n, key, lo, hi) == Admitted(meter, CallsAt(door, states, actions, n), key, lo, hi)
  {
    RunMatches(c, states, actions, n, door, meter, key, cap, lo, hi);
  }

  /** The limiter's clock readings come in the order of its calls. */
  predicate InOrder(door: Door, states: seq<State>, actions: seq<Action>)
    requires |actions| < |states|
  {
    forall i, j :: 0 <= i < j < |actions| && Asks(door, states[i], actions[i]) && Asks(door, states[j], actions[j])
      ==> actions[i].input.now <= actions[j].input.now
  }

  lemma {:induction false} CallsInOrder(door: Door, states: seq<State>, actions: seq<Action>, n: nat)
    requires n <= |actions| < |states| && InOrder(door, states, actions)
    ensures NonDecreasing(CallsAt(door, states, actions, n))
    ensures forall k, i :: 0 <= k < |CallsAt(door, states, actions, n)| && n <= i < |actions| && Asks(door, states[i], actions[i])
              ==> CallsAt(door, states, actions, n)[k].stamp <= actions[i].input.now
  {
    if n > 0 {
      CallsInOrder(door, states, actions, n - 1);
    }
  }

  /**
   In every run whose readings at a limiter come in order, the limiter lets a request
   through exactly when what its clock minute has admitted so far leaves room for it.
   */
  lemma PassesExactlyWithRoom(c: Config, states: seq<State>, actions: seq<Action>, n: nat, door: Door)
    requires Trace(c, states, actions) && n < |actions| && WindowsAt(door, states[0].shared) == map[]
    requires InOrder(door, states, actions) && Asks(door, states[n], actions[n])
    ensures var call, before, tid := AskedCall(door, states[n], actions[n]), CallsAt(door, states, actions, n), actions[n].tid;
            tid < |states[n + 1].threads|
            && (LetThrough(door, states[n + 1].threads[tid]) <==> HasRoom(Requests, before, call) && HasRoom(Tokens, before, call))
  {
    WindowsOfRun(c, states, actions, n, door);
    CallsInOrder(door, states, actions, n);
    assert states[n + 1] == Next(c, states[n], actions[n]);
    AskedStep(c, states[n], actions[n], door);
    AdmittedExactlyWithRoom(CallsAt(door, states, actions, n), AskedCall(door, states[n], actions[n]));
  }

  // ---- Every call asks for something ----

  /** A thread past the rule loop asks for at least one token. */
  predicate AsksForSome(th: Thread) {
    var p := th.phase;
    p.Estimate? || p.CheckBalance? || p.UserLimit? || p.Choose? || p.ChannelLimit? ==> th.estimate >= 1
  }

  lemma MoveKeepsAsking(th: Thread, after: Thread)
    requires Moves(th, after) && AsksForSome(th) && ReturnsFromReload(th.phase)
    ensures AsksForSome(after) && ReturnsFromReload(after.phase)
  {
  }

  predicate AllAsk(s: State) {
    forall i :: 0 <= i < |s.threads| ==> AsksForSome(s.threads[i]) && ReturnsFromReload(s.threads[i].phase)
  }

  lemma StepKeepsAsking(c: Config, s: State, a: Action)
    requires AllAsk(s)
    ensures AllAsk(Next(c, s, a))
  {
    if a.Advance? && a.tid < |s.threads| {
      StepMoves(c, s.shared, s.threads[a.tid], a.input);
      MoveKeepsAsking(s.threads[a.tid], NextThread(c, s.shared, s.threads[a.tid], a.input));
    }
  }

  lemma {:induction false} EveryStateAsks(c: Config, states: seq<State>, actions: seq<Action>, n: nat)
    requires Trace(c, states, actions) && Fresh(states[0]) && n <= |actions|
    ensures AllAsk(states[n])
  {
    if n > 0 {
      EveryStateAsks(c, states, actions, n - 1);
      assert states[n - 1 + 1] == Next(c, states[n - 1], actions[n - 1]);
      StepKeepsAsking(c, states[n - 1], actions[n - 1]);
    }
  }

  lemma AskedForSome(door: Door, s: State, a: Action)
    requires AllAsk(s) && Asks(door, s, a)
    ensures AskedCall(door, s, a).tokDelta >= 1 && AskedCall(door, s, a).reqDelta == 1
  {
  }

  lemma {:induction false} CallsCapped(door: Door, states: seq<State>, actions: seq<Action>, n: nat, meter: Meter, key: string, cap: int)
    requires n <= |actions| < |states|
    requires forall i :: 0 <= i < |actions| ==> LimitedTo(door, meter, states[i], actions[i], key, cap)
    requires forall i :: 0 <= i < |actions| ==> AllAsk(states[i])
    ensures Capped(meter, CallsAt(door, states, actions, n), key, cap)
  {
    if n > 0 {
      CallsCapped(door, states, actions, n - 1, meter, key, cap);
      var s, a := states[n - 1], actions[n - 1];
      assert LimitedTo(door, meter, s, a, key, cap) && AllAsk(s);
      if Asks(door, s, a) {
        AskedForSome(door, s, a);
      }
    }
  }

  // ---- End to end ----

  /** What passes under the key is at most `cap` in the clock minute, and twice that in the sixty seconds from `from`. */
  predicate RateHolds(door: Door, states: seq<State>, actions: seq<Action>, meter: Meter, key: string, cap: nat, minute: nat, from: Time)
    requires |actions| < |states|
  {
    && Passed(door, meter, states, actions, |actions|, key, StartOf(minute), StartOf(minute + 1)) <= cap
    && Passed(door, meter, states, actions, |actions|, key, from, from + MINUTE) <= 2 * cap
  }

  /**
   In any interleaving with a limiter's clock readings in order, if every request
   under a key is limited to at most `cap`, then what passes the limiter under that
   key is at most `cap` in any clock minute and twice that in any sixty seconds.
   */
  lemma DoorRateHolds(c: Config, states: seq<State>, actions: seq<Action>, door: Door, meter: Meter, key: string, cap: nat, minute: nat,
                      from: Time)
    requires Trace(c, states, actions) && Fresh(states[0]) && WindowsAt(door, states[0].shared) == map[]
    requires InOrder(door, states, actions)
    requires forall i :: 0 <= i < |actions| ==> LimitedTo(door, meter, states[i], actions[i], key, cap)
    ensures RateHolds(door, states, actions, meter, key, cap, minute, from)
  {
    forall i | 0 <= i < |actions| ensures AllAsk(states[i]) {
      EveryStateAsks(c, states, actions, i);
    }
    var n := |actions|;
    CallsInOrder(door, states, actions, n);
    CallsCapped(door, states, actions, n, meter, key, cap);
    PassedIsAdmitted(c, states, actions, n, door, meter, key, cap, StartOf(minute), StartOf(minute + 1));
    PassedIsAdmitted(c, states, actions, n, door, meter, key, cap, from, from + MINUTE);
    MinuteBound(meter, CallsAt(door, states, actions, n), key, cap, minute);
    SpanBound(meter, CallsAt(door, states, actions, n), key, cap, from);
  }

  /** The API key whose account the request has. */
  predicate OfAccount(s: State, a: Action, key: string) {
    Asks(Users, s, a) && s.threads[a.tid].account.value.key == key
  }

  lemma UserKeyNamesAccount(s: State, a: Action, key: string)
    requires Asks(Users, s, a)
    ensures AskedCall(Users, s, a).key == UserKey(key) <==> OfAccount(s, a, key)
  {
    var own := s.threads[a.tid].account.value.key;
    assert own == UserKey(own)[5..] && key == UserKey(key)[5..];
  }

  /** An API key whose requests all set a positive limit of at most `cap` stays within it, and within twice it in sixty seconds. */
  lemma UserRateHolds(c: Config, states: seq<State>, actions: seq<Action>, meter: Meter, key: string, cap: nat, minute: nat, from: Time)
    requires Trace(c, states, actions) && Fresh(states[0]) && states[0].shared.users == map[]
    requires InOrder(Users, states, actions)
    requires forall i :: 0 <= i < |actions| && OfAccount(states[i], actions[i], key)
               ==> 0 < meter.Limit(AskedCall(Users, states[i], actions[i])) <= cap
    ensures RateHolds(Users, states, actions, meter, UserKey(key), cap, minute, from)
  {
    forall i | 0 <= i < |actions| ensures LimitedTo(Users, meter, states[i], actions[i], UserKey(key), cap) {
      if Asks(Users, states[i], actions[i]) {
        UserKeyNamesAccount(states[i], actions[i], key);
      }
    }
    DoorRateHolds(c, states, actions, Users, meter, UserKey(key), cap, minute, from);
  }

  /** A channel whose requests all meet a positive scaled limit of at most `cap` stays within it, and within twice it in sixty seconds. */
  lemma ChannelRateHolds(c: Config, states: seq<State>, actions: seq<Action>, meter: Meter, provider: string, alias: string, cap: nat,
                         minute: nat, from: Time)
    requires Trace(c, states, actions) && Fresh(states[0]) && states[0].shared.channels == map[]
    requires InOrder(Channels, states, actions)
    requires forall i :: 0 <= i < |actions| ==> LimitedTo(Channels, meter, states[i], actions[i], ChannelKey(provider, alias), cap)
    ensures RateHolds(Channels, states, actions, meter, ChannelKey(provider, alias), cap, minute, from)
  {
    DoorRateHolds(c, states, actions, Channels, meter, ChannelKey(provider, alias), cap, minute, from);
  }

  /** A scaled limit is positive exactly when the limit times the scale is at least one; at zero the channel is unlimited. */
  lemma ScaledLimitIsPositiveExactly(limit: int, scale: real)
    ensures ScaledLimit(limit, scale) > 0 <==> limit as real * scale >= 1.0
  {
  }
}
