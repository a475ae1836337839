/**
 Which interleavings keep a session with its provider: exactly those in which no
 selection of the session reads the binding between another's decision and its
 write.  A schedule is the order of the selections' steps; what snapshots are
 published and what is drawn is left open.
 */
module SessionSchedules {
  import opened Base
  import opened Clock
  import opened Tables
  import opened Selection
  import opened Sessions
  import opened Sums

  // ---- Sessions kept ----

  /** An unforced request of the session. */
  predicate Ours(req: Request, session: string) { req.session == session && req.forced == "" }

  /** The action is a decision of a selection of the session that found a provider. */
  ghost predicate Decides(s: State, a: Action, session: string) {
    a.Decide? && Can(s, a) && Ours(s.seekers[a.i].req, session) && a.outcome.Selected?
  }

  /** The provider of the session's last such decision. */
  ghost function LastDecided(s: State, actions: seq<Action>, session: string): Option<string> {
    if actions == [] then None
    else
      var before, a := actions[..|actions| - 1], actions[|actions| - 1];
      if Decides(Run(s, before), a, session) then Some(a.outcome.provider.name) else LastDecided(s, before, session)
  }

  /** The decision takes the session from its last provider, which would have served the request. */
  ghost predicate Splits(s: State, a: Action, session: string, last: Option<string>) {
    && Decides(s, a, session) && last.Some? && a.outcome.provider.name != last.value
    && Qualifies(s.seekers[a.i].stage.snap, last.value, s.seekers[a.i].req.model, s.seekers[a.i].req.now)
  }

  ghost predicate NeverSplits(s: State, actions: seq<Action>, session: string) {
    actions == []
    || var before, a := actions[..|actions| - 1], actions[|actions| - 1];
       NeverSplits(s, before, session) && !Splits(Run(s, before), a, session, LastDecided(s, before, session))
  }

  /** Every action of the run can happen; a selection with nothing to bind skips its write. */
  ghost predicate Legal(s: State, actions: seq<Action>) {
    actions == []
    || var before, a := actions[..|actions| - 1], actions[|actions| - 1];
       Legal(s, before) && (a.Bind? || Can(Run(s, before), a))
  }

  lemma OneMore(s: State, actions: seq<Action>, a: Action, session: string)
    ensures Run(s, actions + [a]) == Next(Run(s, actions), a)
    ensures Legal(s, actions + [a]) <==> Legal(s, actions) && (a.Bind? || Can(Run(s, actions), a))
    ensures LastDecided(s, actions + [a], session)
         == if Decides(Run(s, actions), a, session) then Some(a.outcome.provider.name) else LastDecided(s, actions, session)
    ensures NeverSplits(s, actions + [a], session)
       <==> NeverSplits(s, actions, session) && !Splits(Run(s, actions), a, session, LastDecided(s, actions, session))
  {
    assert (actions + [a])[..|actions|] == actions;
  }

  // ---- Schedules ----

  datatype Slot = Arrival(req: Request, rand: nat -> nat, nanos: nat) | LookSlot(i: nat) | DecideSlot(i: nat) | BindSlot(i: nat)

  /** The step of a selection, if the action is one. */
  function SlotsOf(a: Action): seq<Slot> {
    match a
    case Arrive(req, rand, nanos) => [Arrival(req, rand, nanos)]
    case Publish(_) => []
    case Look(i) => [LookSlot(i)]
    case Decide(i, _) => [DecideSlot(i)]
    case Bind(i) => [BindSlot(i)]
  }

  function Schedule(actions: seq<Action>): seq<Slot> {
    if actions == [] then [] else Schedule(actions[..|actions| - 1]) + SlotsOf(actions[|actions| - 1])
  }

  lemma ScheduleOneMore(actions: seq<Action>, a: Action)
    ensures Schedule(actions + [a]) == Schedule(actions) + SlotsOf(a)
  {
    assert (actions + [a])[..|actions|] == actions;
  }

  function Arrivals(slots: seq<Slot>): nat {
    if slots == [] then 0 else Arrivals(slots[..|slots| - 1]) + if slots[|slots| - 1].Arrival? then 1 else 0
  }

  /** The selections of the session among those that have arrived. */
  function OursIn(slots: seq<Slot>, session: string): set<nat> {
    if slots == [] then {}
    else
      var before, x := slots[..|slots| - 1], slots[|slots| - 1];
      if x.Arrival? && Ours(x.req, session) then OursIn(before, session) + {Arrivals(before)} else OursIn(before, session)
  }

  /** Those that have decided and not yet had their turn to write. */
  function Pending(slots: seq<Slot>, session: string): set<nat> {
    if slots == [] then {}
    else
      var before, x := slots[..|slots| - 1], slots[|slots| - 1];
      if x.DecideSlot? && x.i in OursIn(before, session) then Pending(before, session) + {x.i}
      else if x.BindSlot? then Pending(before, session) - {x.i}
      else Pending(before, session)
  }

  /** No selection of the session decides while another is pending. */
  predicate InTurn(slots: seq<Slot>, session: string) {
    slots == []
    || var before, x := slots[..|slots| - 1], slots[|slots| - 1];
       InTurn(before, session) && (x.DecideSlot? && x.i in OursIn(before, session) ==> Pending(before, session) == {})
  }

  /** Each selection looks once, after its arrival, and decides once, after its look. */
  ghost predicate WellFormed(slots: seq<Slot>) {
    slots == []
    || var before, x := slots[..|slots| - 1], slots[|slots| - 1];
       && WellFormed(before)
       && (x.Arrival? ==> Intn(x.rand))
       && (x.LookSlot? ==> x.i < Arrivals(before) && x !in before)
       && (x.DecideSlot? ==> LookSlot(x.i) in before && x !in before)
  }

  /** However the schedule is run, the session is never split. */
  ghost predicate Keeps(slots: seq<Slot>, session: string) {
    forall s, actions :: Fresh(s) && Legal(s, actions) && Schedule(actions) == slots ==> NeverSplits(s, actions, session)
  }

  lemma SlotsOneMore(slots: seq<Slot>, x: Slot, session: string)
    ensures Arrivals(slots + [x]) == Arrivals(slots) + if x.Arrival? then 1 else 0
    ensures OursIn(slots + [x], session) == OursIn(slots, session) + if x.Arrival? && Ours(x.req, session) then {Arrivals(slots)} else {}
    ensures Pending(slots + [x], session)
         == if x.DecideSlot? && x.i in OursIn(slots, session) then Pending(slots, session) + {x.i}
            else if x.BindSlot? then Pending(slots, session) - {x.i}
            else Pending(slots, session)
    ensures InTurn(slots + [x], session)
       <==> InTurn(slots, session) && (x.DecideSlot? && x.i in OursIn(slots, session) ==> Pending(slots, session) == {})
  {
    assert (slots + [x])[..|slots|] == slots;
  }

  lemma {:induction false} OursHaveArrived(slots: seq<Slot>, session: string)
    ensures forall i :: i in OursIn(slots, session) ==> i < Arrivals(slots)
  {
    if slots != [] {
      OursHaveArrived(slots[..|slots| - 1], session);
    }
  }

  // ---- In turn, a session is kept ----

  /** The selection of the session has drawn a provider and not yet written it. */
  predicate DrawnOurs(s: State, i: nat, session: string) {
    i < |s.seekers| && Ours(s.seekers[i].req, session) && s.seekers[i].stage.Drawn?
  }

  /** The state's seekers are the schedule's, and those between decision and write are among its pending ones. */
  ghost predicate Aligned(s: State, slots: seq<Slot>, session: string) {
    && |s.seekers| == Arrivals(slots)
    && (forall i: nat :: i < |s.seekers| ==> (Ours(s.seekers[i].req, session) <==> i in OursIn(slots, session)))
    && (forall i: nat :: DrawnOurs(s, i, session) ==> i in Pending(slots, session))
  }

  /** The binding names the last provider decided on, unless that one is still to be written. */
  ghost predicate Follows(s: State, session: string, last: Option<string>) {
    && (forall i: nat, j: nat :: DrawnOurs(s, i, session) && DrawnOurs(s, j, session) ==> i == j)
    && (forall i: nat :: DrawnOurs(s, i, session) ==> s.seekers[i].stage.outcome.Selected? && last == Some(s.seekers[i].stage.outcome.provider.name))
    && ((forall i: nat :: !DrawnOurs(s, i, session)) ==> BindingOf(s.sticky, session) == last)
  }

  lemma ArrivalAligned(s: State, slots: seq<Slot>, session: string, req: Request, rand: nat -> nat, nanos: nat)
    requires Aligned(s, slots, session)
    ensures Aligned(s.(seekers := s.seekers + [Seeker(req, rand, nanos, Begun)]), slots + [Arrival(req, rand, nanos)], session)
  {
    SlotsOneMore(slots, Arrival(req, rand, nanos), session);
    OursHaveArrived(slots, session);
    forall i: nat | DrawnOurs(s.(seekers := s.seekers + [Seeker(req, rand, nanos, Begun)]), i, session) ensures i in Pending(slots, session) {
      assert DrawnOurs(s, i, session);
    }
  }

  lemma StageAligned(s: State, slots: seq<Slot>, session: string, i: nat, stage: Stage, x: Slot)
    requires Aligned(s, slots, session) && i < |s.seekers| && !x.Arrival? && x.i == i
    requires stage.Drawn? ==> x.DecideSlot?
    requires x.BindSlot? ==> !stage.Drawn?
    ensures Aligned(Advanced(s, i, stage), slots + [x], session)
  {
    SlotsOneMore(slots, x, session);
    var after := Advanced(s, i, stage);
    forall k: nat | DrawnOurs(after, k, session) ensures k in Pending(slots + [x], session) {
      assert k != i ==> DrawnOurs(s, k, session);
      assert k == i ==> Ours(s.seekers[i].req, session);
    }
  }

  lemma SameAligned(s: State, after: State, slots: seq<Slot>, session: string)
    requires Aligned(s, slots, session) && after.seekers == s.seekers
    ensures Aligned(after, slots, session)
  {
    forall i: nat | DrawnOurs(after, i, session) ensures i in Pending(slots, session) {
      assert DrawnOurs(s, i, session);
    }
  }

  lemma SkippedBindAligned(s: State, slots: seq<Slot>, session: string, i: nat)
    requires Aligned(s, slots, session) && !DrawnOurs(s, i, session)
    ensures Aligned(s, slots + [BindSlot(i)], session)
  {
    SlotsOneMore(slots, BindSlot(i), session);
  }

  lemma StepAligned(s: State, a: Action, slots: seq<Slot>, session: string)
    requires Consistent(s) && Aligned(s, slots, session) && (a.Bind? || Can(s, a))
    ensures Aligned(Next(s, a), slots + SlotsOf(a), session)
  {
    match a
    case Arrive(req, rand, nanos) => ArrivalAligned(s, slots, session, req, rand, nanos);
    case Publish(snap) =>
      SameAligned(s, Next(s, a), slots, session);
      assert slots + [] == slots;
    case Look(i) => StageAligned(s, slots, session, i, Looked(s.snapshot), LookSlot(i));
    case Decide(i, outcome) => StageAligned(s, slots, session, i, Next(s, a).seekers[i].stage, DecideSlot(i));
    case Bind(i) =>
      if Can(s, a) {
        var done := Advanced(s, i, Done(s.seekers[i].stage.snap, s.seekers[i].stage.outcome));
        StageAligned(s, slots, session, i, Done(s.seekers[i].stage.snap, s.seekers[i].stage.outcome), BindSlot(i));
        SameAligned(done, Next(s, a), slots + [BindSlot(i)], session);
      } else {
        assert i < |s.seekers| ==> Sound(s.seekers[i]);
        SkippedBindAligned(s, slots, session, i);
      }
  }

  /** A step of another kind, or of another's selection, leaves the session as it is. */
  lemma OtherFollows(s: State, after: State, session: string, last: Option<string>)
    requires Follows(s, session, last) && BindingOf(after.sticky, session) == BindingOf(s.sticky, session)
    requires forall i: nat :: DrawnOurs(after, i, session) <==> DrawnOurs(s, i, session)
    requires forall i: nat :: DrawnOurs(s, i, session) ==> i < |after.seekers| && after.seekers[i].stage == s.seekers[i].stage
    ensures Follows(after, session, last)
  {
  }

  /** A decision of the session, with none of its selections between decision and write. */
  lemma DecisionFollows(s: State, i: nat, outcome: Outcome, session: string, last: Option<string>)
    requires Consistent(s) && Follows(s, session, last) && session != "" && Can(s, Decide(i, outcome))
    requires Ours(s.seekers[i].req, session) && forall k: nat :: !DrawnOurs(s, k, session)
    ensures Follows(Next(s, Decide(i, outcome)), session, if outcome.Selected? then Some(outcome.provider.name) else last)
    ensures !Splits(s, Decide(i, outcome), session, last)
  {
    var snap, req, after := s.seekers[i].stage.snap, s.seekers[i].req, Next(s, Decide(i, outcome));
    assert Sound(s.seekers[i]);
    assert BindingOf(s.sticky, session) == last;
    forall k: nat | k != i ensures !DrawnOurs(after, k, session) {
      assert !DrawnOurs(s, k, session);
    }
    assert DrawnOurs(after, i, session) <==> Binds(snap, s.sticky, req, outcome);
  }

  lemma BindFollows(s: State, i: nat, session: string, last: Option<string>)
    requires Consistent(s) && Follows(s, session, last) && Can(s, Bind(i)) && Ours(s.seekers[i].req, session)
    ensures Follows(Next(s, Bind(i)), session, last)
  {
    var after := Next(s, Bind(i));
    assert DrawnOurs(s, i, session);
    forall k: nat ensures !DrawnOurs(after, k, session) {
      assert k != i && DrawnOurs(after, k, session) ==> DrawnOurs(s, k, session);
    }
  }

  lemma ForeignDraws(s: State, a: Action, session: string)
    requires a.Decide? || (a.Bind? && Can(s, a)) ==> a.i < |s.seekers| && !Ours(s.seekers[a.i].req, session)
    ensures forall i: nat :: DrawnOurs(Next(s, a), i, session) <==> DrawnOurs(s, i, session)
    ensures forall i: nat :: DrawnOurs(s, i, session) ==> i < |Next(s, a).seekers| && Next(s, a).seekers[i].stage == s.seekers[i].stage
  {
    var after := Next(s, a);
    forall i: nat ensures (DrawnOurs(after, i, session) <==> DrawnOurs(s, i, session))
                       && (DrawnOurs(s, i, session) ==> i < |after.seekers| && after.seekers[i].stage == s.seekers[i].stage) {
      assert i < |s.seekers| ==> after.seekers[i].req == s.seekers[i].req;
    }
  }

  /** A step that is not a decision or a write of the session's own selections. */
  lemma ForeignFollows(s: State, a: Action, session: string, last: Option<string>)
    requires Consistent(s) && (a.Bind? || Can(s, a)) && Follows(s, session, last)
    requires a.Decide? || (a.Bind? && Can(s, a)) ==> !Ours(s.seekers[a.i].req, session)
    ensures Follows(Next(s, a), session, last)
  {
    if a.Bind? && Can(s, a) {
      assert Sound(s.seekers[a.i]);
    }
    ForeignDraws(s, a, session);
    OtherFollows(s, Next(s, a), session, last);
  }

  lemma NoneDrawnInTurn(s: State, slots: seq<Slot>, session: string, i: nat)
    requires Aligned(s, slots, session) && i < |s.seekers| && Ours(s.seekers[i].req, session)
    requires InTurn(slots + [DecideSlot(i)], session)
    ensures forall k: nat :: !DrawnOurs(s, k, session)
  {
    SlotsOneMore(slots, DecideSlot(i), session);
    forall k: nat ensures !DrawnOurs(s, k, session) {
      assert DrawnOurs(s, k, session) ==> k in Pending(slots, session);
    }
  }

  lemma StepFollows(s: State, a: Action, slots: seq<Slot>, session: string, last: Option<string>)
    requires Consistent(s) && Aligned(s, slots, session) && (a.Bind? || Can(s, a)) && session != ""
    requires InTurn(slots + SlotsOf(a), session) && Follows(s, session, last)
    ensures Follows(Next(s, a), session, if Decides(s, a, session) then Some(a.outcome.provider.name) else last)
    ensures !Splits(s, a, session, last)
  {
    if a.Decide? && Ours(s.seekers[a.i].req, session) {
      NoneDrawnInTurn(s, slots, session, a.i);
      DecisionFollows(s, a.i, a.outcome, session, last);
    } else if a.Bind? && Can(s, a) && Ours(s.seekers[a.i].req, session) {
      BindFollows(s, a.i, session, last);
    } else {
      ForeignFollows(s, a, session, last);
    }
  }

  lemma InTurnBefore(slots: seq<Slot>, a: Action, session: string)
    requires InTurn(slots + SlotsOf(a), session)
    ensures InTurn(slots, session)
  {
    if SlotsOf(a) == [] {
      assert slots + [] == slots;
    } else {
      SlotsOneMore(slots, SlotsOf(a)[0], session);
    }
  }

  lemma {:induction false} RunAligned(s: State, actions: seq<Action>, session: string)
    requires Fresh(s) && Legal(s, actions)
    ensures Aligned(Run(s, actions), Schedule(actions), session)
  {
    if actions != [] {
      var before, a := actions[..|actions| - 1], actions[|actions| - 1];
      RunAligned(s, before, session);
      EveryStateConsistent(s, before);
      StepAligned(Run(s, before), a, Schedule(before), session);
    }
  }

  /** In turn, a session is never split. */
  lemma {:induction false} KeptInTurn(s: State, actions: seq<Action>, session: string)
    requires Fresh(s) && Legal(s, actions) && session != "" && InTurn(Schedule(actions), session)
    ensures Follows(Run(s, actions), session, LastDecided(s, actions, session)) && NeverSplits(s, actions, session)
  {
    if actions != [] {
      var before, a := actions[..|actions| - 1], actions[|actions| - 1];
      assert actions == before + [a];
      InTurnBefore(Schedule(before), a, session);
      KeptInTurn(s, before, session);
      RunAligned(s, before, session);
      EveryStateConsistent(s, before);
      OneMore(s, before, a, session);
      StepFollows(Run(s, before), a, Schedule(before), session, LastDecided(s, before, session));
    }
  }

  // ---- Out of turn, a session may be split ----

  const KEY := ProviderKeyState(1, "primary", true, 0, -1, "")

  function Plain(name: string): ProviderState { ProviderState(name, 1, [], 0, 0, true, "default", 0, [KEY]) }

  /** Two providers that serve every request, and none at all. */
  const PAIR := Snapshot(map["a" := Plain("a"), "b" := Plain("b")], map[], [], [])
  const NONE := Snapshot(map[], map[], [], [])

  lemma PairQualifies(name: string, req: Request)
    ensures Qualifies(PAIR, name, req.model, req.now) <==> name == "a" || name == "b"
  {
    assert KEY in Plain("a").keys && KEY in Plain("b").keys && LiveKey(KEY, req.now);
  }

  /** With nothing bound, either of the two may be drawn, whatever the random draw. */
  lemma EitherIsDrawn(req: Request, rand: nat -> nat, nanos: nat, name: string)
    requires (name == "a" || name == "b") && req.forced == "" && Intn(rand)
    ensures Answers(PAIR, map[], req, rand, nanos, Selected(Plain(name), KEY))
  {
    var other := if name == "a" then "b" else "a";
    var names := if rand(2) == 0 then [name, other] else [other, name];
    var items := [Plain(names[0]), Plain(names[1])];
    assert rand(2) < 2;
    DrawOfTwo(items[0], items[1], rand(2));
    PairIsListed(items, names, req);
    assert DrawnFrom(PAIR, req, rand, Plain(name));
    OneLiveKey(name, req.now);
    PairQualifies(name, req);
  }

  lemma DrawOfTwo(first: ProviderState, second: ProviderState, r: nat)
    requires Weight(first) == Weight(second) == 1 && r < 2
    ensures Total([first, second]) == 2 && Pick([first, second], r) == [first, second][r]
  {
    assert [first, second][1..] == [second] && [second][1..] == [];
    assert Total([second]) == 1;
  }

  lemma OneLiveKey(name: string, now: Time)
    ensures LiveKeys(Plain(name), now) == [KEY]
  {
    var keys := Plain(name).keys;
    assert keys == [KEY] && keys[1..] == [] && LiveKey(keys[0], now);
    assert LiveKeys(Plain(name), now) == [keys[0]] + Filter(keys[1..], (k: ProviderKeyState) => LiveKey(k, now));
  }

  lemma PairIsListed(items: seq<ProviderState>, names: seq<string>, req: Request)
    requires names == ["a", "b"] || names == ["b", "a"]
    requires items == [Plain(names[0]), Plain(names[1])]
    ensures ListsCandidates(items, names, PAIR, req.model, req.now)
  {
    forall name ensures name in names <==> Qualifies(PAIR, name, req.model, req.now) {
      PairQualifies(name, req);
    }
  }

  lemma NoneAnswers(sticky: Sticky, req: Request, rand: nat -> nat, nanos: nat)
    ensures Answers(NONE, sticky, req, rand, nanos, Unavailable)
  {
  }

  // ---- The run that splits: selections i and j see the pair, all others nothing ----

  function SnapFor(k: nat, i: nat, j: nat): Snapshot { if k == i || k == j then PAIR else NONE }

  function OutcomeFor(k: nat, i: nat, j: nat): Outcome {
    if k == i then Selected(Plain("a"), KEY) else if k == j then Selected(Plain("b"), KEY) else Unavailable
  }

  function ActionsFor(x: Slot, i: nat, j: nat): seq<Action> {
    match x
    case Arrival(req, rand, nanos) => [Arrive(req, rand, nanos)]
    case LookSlot(k) => [Publish(SnapFor(k, i, j)), Look(k)]
    case DecideSlot(k) => [Decide(k, OutcomeFor(k, i, j))]
    case BindSlot(k) => [Bind(k)]
  }

  function Fill(slots: seq<Slot>, i: nat, j: nat): seq<Action> {
    if slots == [] then [] else Fill(slots[..|slots| - 1], i, j) + ActionsFor(slots[|slots| - 1], i, j)
  }

  /** Selection i decides before j, and is pending when j decides. */
  ghost predicate Staged(slots: seq<Slot>, session: string, i: nat, j: nat) {
    slots == []
    || var before, x := slots[..|slots| - 1], slots[|slots| - 1];
       && Staged(before, session, i, j)
       && (x == DecideSlot(i) ==> DecideSlot(j) !in before && i in OursIn(before, session))
       && (x == DecideSlot(j) ==> i in Pending(before, session) && j in OursIn(before, session))
  }

  ghost predicate StageFits(stage: Stage, slots: seq<Slot>, k: nat, i: nat, j: nat) {
    if LookSlot(k) !in slots then stage.Begun?
    else if DecideSlot(k) !in slots then stage == Looked(SnapFor(k, i, j))
    else if k == i || k == j then stage.Drawn? || stage.Done?
    else stage == Done(NONE, Unavailable)
  }

  /** Nothing can have been written yet: j has not decided, and i is pending once it has. */
  ghost predicate Quiet(slots: seq<Slot>, session: string, i: nat, j: nat) {
    DecideSlot(j) !in slots && (DecideSlot(i) in slots ==> i in Pending(slots, session))
  }

  ghost predicate Filled(s: State, slots: seq<Slot>, session: string, i: nat, j: nat) {
    && |s.seekers| == Arrivals(slots)
    && (forall k: nat :: k < |s.seekers| ==>
          && (Ours(s.seekers[k].req, session) <==> k in OursIn(slots, session)) && Intn(s.seekers[k].rand)
          && StageFits(s.seekers[k].stage, slots, k, i, j))
    && (Quiet(slots, session, i, j) ==> s.sticky == map[])
  }

  lemma MembersOneMore(slots: seq<Slot>, x: Slot, y: Slot)
    ensures y in slots + [x] <==> y in slots || y == x
  {
  }

  lemma {:induction false} PendingDecided(slots: seq<Slot>, session: string)
    ensures forall k :: k in Pending(slots, session) ==> DecideSlot(k) in slots && k in OursIn(slots, session)
  {
    if slots != [] {
      var before, x := slots[..|slots| - 1], slots[|slots| - 1];
      assert slots == before + [x];
      PendingDecided(before, session);
      SlotsOneMore(before, x, session);
    }
  }

  lemma QuietBefore(slots: seq<Slot>, x: Slot, session: string, i: nat, j: nat)
    requires Quiet(slots + [x], session, i, j) && (x.DecideSlot? ==> x !in slots)
    ensures Quiet(slots, session, i, j)
  {
    SlotsOneMore(slots, x, session);
    MembersOneMore(slots, x, DecideSlot(i));
    MembersOneMore(slots, x, DecideSlot(j));
    PendingDecided(slots, session);
  }

  /** A selection's stage fits one slot on, when the slot is not its own. */
  lemma OtherStageFits(stage: Stage, slots: seq<Slot>, x: Slot, k: nat, i: nat, j: nat)
    requires StageFits(stage, slots, k, i, j) && x != LookSlot(k) && x != DecideSlot(k)
    ensures StageFits(stage, slots + [x], k, i, j)
  {
    MembersOneMore(slots, x, LookSlot(k));
    MembersOneMore(slots, x, DecideSlot(k));
  }

  lemma FillArrival(s: State, slots: seq<Slot>, session: string, i: nat, j: nat, x: Slot)
    requires Filled(s, slots, session, i, j) && x.Arrival? && Intn(x.rand)
    requires forall k: nat :: LookSlot(k) in slots ==> k < Arrivals(slots)
    ensures Filled(Next(s, Arrive(x.req, x.rand, x.nanos)), slots + [x], session, i, j)
  {
    var after := Next(s, Arrive(x.req, x.rand, x.nanos));
    SlotsOneMore(slots, x, session);
    OursHaveArrived(slots, session);
    if Quiet(slots + [x], session, i, j) {
      QuietBefore(slots, x, session, i, j);
    }
    forall k: nat | k < |after.seekers| ensures StageFits(after.seekers[k].stage, slots + [x], k, i, j) {
      if k < |s.seekers| {
        OtherStageFits(s.seekers[k].stage, slots, x, k, i, j);
      } else {
        MembersOneMore(slots, x, LookSlot(k));
      }
    }
  }

  lemma FillLook(s: State, slots: seq<Slot>, session: string, i: nat, j: nat, k: nat)
    requires Filled(s, slots, session, i, j) && k < |s.seekers| && LookSlot(k) !in slots && DecideSlot(k) !in slots
    ensures var published := Next(s, Publish(SnapFor(k, i, j)));
      && Can(s, Publish(SnapFor(k, i, j))) && Can(published, Look(k))
      && Filled(Next(published, Look(k)), slots + [LookSlot(k)], session, i, j)
  {
    var x := LookSlot(k);
    var published := Next(s, Publish(SnapFor(k, i, j)));
    var after := Next(published, Look(k));
    SlotsOneMore(slots, x, session);
    if Quiet(slots + [x], session, i, j) {
      QuietBefore(slots, x, session, i, j);
    }
    forall m: nat | m < |after.seekers| ensures StageFits(after.seekers[m].stage, slots + [x], m, i, j) {
      if m == k {
        MembersOneMore(slots, x, LookSlot(k));
        MembersOneMore(slots, x, DecideSlot(k));
      } else {
        OtherStageFits(s.seekers[m].stage, slots, x, m, i, j);
      }
    }
  }

  /** The decision the run has at this slot is one the selection may make. */
  lemma FillCanDecide(s: State, slots: seq<Slot>, session: string, i: nat, j: nat, k: nat)
    requires Filled(s, slots, session, i, j) && k < |s.seekers| && LookSlot(k) in slots && DecideSlot(k) !in slots && i != j
    requires k == i ==> DecideSlot(j) !in slots && i in OursIn(slots, session)
    requires k == j ==> i in Pending(slots, session) && j in OursIn(slots, session)
    ensures Can(s, Decide(k, OutcomeFor(k, i, j)))
  {
    var th := s.seekers[k];
    assert StageFits(th.stage, slots, k, i, j) && th.stage == Looked(SnapFor(k, i, j));
    if k == i || k == j {
      assert Quiet(slots, session, i, j) && s.sticky == map[];
      EitherIsDrawn(th.req, th.rand, th.nanos, if k == i then "a" else "b");
    } else {
      NoneAnswers(s.sticky, th.req, th.rand, th.nanos);
    }
  }

  lemma FillDecide(s: State, slots: seq<Slot>, session: string, i: nat, j: nat, k: nat)
    requires Filled(s, slots, session, i, j) && k < |s.seekers| && LookSlot(k) in slots && DecideSlot(k) !in slots
    requires Can(s, Decide(k, OutcomeFor(k, i, j)))
    ensures Filled(Next(s, Decide(k, OutcomeFor(k, i, j))), slots + [DecideSlot(k)], session, i, j)
  {
    var x := DecideSlot(k);
    var after := Next(s, Decide(k, OutcomeFor(k, i, j)));
    SlotsOneMore(slots, x, session);
    if Quiet(slots + [x], session, i, j) {
      QuietBefore(slots, x, session, i, j);
    }
    assert StageFits(s.seekers[k].stage, slots, k, i, j);
    forall m: nat | m < |after.seekers| ensures StageFits(after.seekers[m].stage, slots + [x], m, i, j) {
      if m == k {
        MembersOneMore(slots, x, LookSlot(k));
        MembersOneMore(slots, x, DecideSlot(k));
      } else {
        OtherStageFits(s.seekers[m].stage, slots, x, m, i, j);
      }
    }
  }

  lemma FillBind(s: State, slots: seq<Slot>, session: string, i: nat, j: nat, k: nat)
    requires Filled(s, slots, session, i, j)
    ensures Filled(Next(s, Bind(k)), slots + [BindSlot(k)], session, i, j)
  {
    var x := BindSlot(k);
    var after := Next(s, Bind(k));
    SlotsOneMore(slots, x, session);
    if Quiet(slots + [x], session, i, j) {
      QuietBefore(slots, x, session, i, j);
      if k < |s.seekers| {
        assert StageFits(s.seekers[k].stage, slots, k, i, j);
        MembersOneMore(slots, x, DecideSlot(k));
      }
    }
    forall m: nat | m < |after.seekers| ensures StageFits(after.seekers[m].stage, slots + [x], m, i, j) {
      OtherStageFits(s.seekers[m].stage, slots, x, m, i, j);
      if m == k && Can(s, Bind(k)) {
        MembersOneMore(slots, x, LookSlot(k));
        MembersOneMore(slots, x, DecideSlot(k));
      }
    }
  }

  lemma {:induction false} LooksHaveArrived(slots: seq<Slot>)
    requires WellFormed(slots)
    ensures forall k: nat :: LookSlot(k) in slots ==> k < Arrivals(slots)
    ensures forall k: nat :: DecideSlot(k) in slots ==> LookSlot(k) in slots
  {
    if slots != [] {
      var before, x := slots[..|slots| - 1], slots[|slots| - 1];
      assert slots == before + [x];
      LooksHaveArrived(before);
      SlotsOneMore(before, x, "");
      forall k: nat ensures LookSlot(k) in slots ==> k < Arrivals(slots) {
        MembersOneMore(before, x, LookSlot(k));
      }
      forall k: nat ensures DecideSlot(k) in slots ==> LookSlot(k) in slots {
        MembersOneMore(before, x, LookSlot(k));
        MembersOneMore(before, x, DecideSlot(k));
      }
    }
  }

  /** What the session's last decision is in the run that splits. */
  ghost function LastOf(slots: seq<Slot>, i: nat, j: nat): Option<string> {
    if DecideSlot(j) in slots then Some("b") else if DecideSlot(i) in slots then Some("a") else None
  }

  ghost predicate Filling(start: State, slots: seq<Slot>, session: string, i: nat, j: nat) {
    var actions := Fill(slots, i, j);
    && Legal(start, actions) && Schedule(actions) == slots
    && Filled(Run(start, actions), slots, session, i, j)
    && LastDecided(start, actions, session) == LastOf(slots, i, j)
    && (DecideSlot(j) in slots ==> !NeverSplits(start, actions, session))
  }

  /** The longer run is legal, decides nothing more for the session, and is split if the shorter one is. */
  ghost predicate Extends(start: State, actions: seq<Action>, more: seq<Action>, session: string) {
    && Legal(start, more)
    && LastDecided(start, more, session) == LastDecided(start, actions, session)
    && (NeverSplits(start, more, session) ==> NeverSplits(start, actions, session))
  }

  lemma QuietAction(start: State, actions: seq<Action>, a: Action, session: string)
    requires Legal(start, actions) && (a.Bind? || Can(Run(start, actions), a)) && !Decides(Run(start, actions), a, session)
    ensures var more := actions + [a];
            Extends(start, actions, more, session) && Run(start, more) == Next(Run(start, actions), a)
  {
    OneMore(start, actions, a, session);
  }

  lemma TwoQuietActions(start: State, actions: seq<Action>, a: Action, b: Action, session: string)
    requires Legal(start, actions) && !a.Bind? && !a.Decide? && !b.Decide?
    requires Can(Run(start, actions), a) && (b.Bind? || Can(Next(Run(start, actions), a), b))
    ensures var more := actions + [a, b];
            Extends(start, actions, more, session) && Run(start, more) == Next(Next(Run(start, actions), a), b)
  {
    QuietAction(start, actions, a, session);
    QuietAction(start, actions + [a], b, session);
    assert actions + [a, b] == actions + [a] + [b];
  }

  lemma FillingExtends(start: State, slots: seq<Slot>, x: Slot, session: string, i: nat, j: nat)
    requires Filling(start, slots, session, i, j) && x != DecideSlot(i) && x != DecideSlot(j)
    requires Extends(start, Fill(slots, i, j), Fill(slots + [x], i, j), session)
    requires Filled(Run(start, Fill(slots + [x], i, j)), slots + [x], session, i, j)
    ensures Filling(start, slots + [x], session, i, j)
  {
    LastUnchanged(slots, x, i, j);
    ScheduleOfFill(slots + [x], i, j);
  }

  lemma {:induction false} ScheduleOfFill(slots: seq<Slot>, i: nat, j: nat)
    ensures Schedule(Fill(slots, i, j)) == slots
  {
    if slots != [] {
      var before, x := slots[..|slots| - 1], slots[|slots| - 1];
      assert slots == before + [x];
      ScheduleOfFill(before, i, j);
      ScheduleOfActions(Fill(before, i, j), x, i, j);
    }
  }

  lemma ScheduleOfLook(actions: seq<Action>, publish: Action, look: Action)
    requires publish.Publish? && look.Look?
    ensures Schedule(actions + [publish, look]) == Schedule(actions) + [LookSlot(look.i)]
  {
    ScheduleOneMore(actions, publish);
    ScheduleOneMore(actions + [publish], look);
    assert actions + [publish, look] == actions + [publish] + [look];
    assert Schedule(actions) + [] == Schedule(actions);
  }

  lemma ScheduleOfActions(actions: seq<Action>, x: Slot, i: nat, j: nat)
    ensures Schedule(actions + ActionsFor(x, i, j)) == Schedule(actions) + [x]
  {
    match x
    case Arrival(req, rand, nanos) => ScheduleOneMore(actions, Arrive(req, rand, nanos));
    case LookSlot(k) => ScheduleOfLook(actions, Publish(SnapFor(k, i, j)), Look(k));
    case DecideSlot(k) => ScheduleOneMore(actions, Decide(k, OutcomeFor(k, i, j)));
    case BindSlot(k) => ScheduleOneMore(actions, Bind(k));
  }

  lemma FillOneMore(slots: seq<Slot>, x: Slot, i: nat, j: nat)
    ensures Fill(slots + [x], i, j) == Fill(slots, i, j) + ActionsFor(x, i, j)
  {
    assert (slots + [x])[..|slots|] == slots;
  }

  lemma LastUnchanged(slots: seq<Slot>, x: Slot, i: nat, j: nat)
    requires x != DecideSlot(i) && x != DecideSlot(j)
    ensures LastOf(slots + [x], i, j) == LastOf(slots, i, j)
    ensures DecideSlot(j) in slots + [x] <==> DecideSlot(j) in slots
  {
    MembersOneMore(slots, x, DecideSlot(i));
    MembersOneMore(slots, x, DecideSlot(j));
  }

  lemma FillingArrival(start: State, slots: seq<Slot>, session: string, i: nat, j: nat, x: Slot)
    requires Filling(start, slots, session, i, j) && x.Arrival? && Intn(x.rand) && WellFormed(slots)
    ensures Filling(start, slots + [x], session, i, j)
  {
    var actions := Fill(slots, i, j);
    LooksHaveArrived(slots);
    FillOneMore(slots, x, i, j);
    QuietAction(start, actions, Arrive(x.req, x.rand, x.nanos), session);
    FillArrival(Run(start, actions), slots, session, i, j, x);
    FillingExtends(start, slots, x, session, i, j);
  }

  lemma FillingLook(start: State, slots: seq<Slot>, session: string, i: nat, j: nat, k: nat)
    requires Filling(start, slots, session, i, j) && WellFormed(slots) && k < Arrivals(slots) && LookSlot(k) !in slots
    ensures Filling(start, slots + [LookSlot(k)], session, i, j)
  {
    var actions := Fill(slots, i, j);
    LooksHaveArrived(slots);
    FillOneMore(slots, LookSlot(k), i, j);
    FillLook(Run(start, actions), slots, session, i, j, k);
    TwoQuietActions(start, actions, Publish(SnapFor(k, i, j)), Look(k), session);
    FillingExtends(start, slots, LookSlot(k), session, i, j);
  }

  lemma FillingBind(start: State, slots: seq<Slot>, session: string, i: nat, j: nat, k: nat)
    requires Filling(start, slots, session, i, j)
    ensures Filling(start, slots + [BindSlot(k)], session, i, j)
  {
    var actions := Fill(slots, i, j);
    FillOneMore(slots, BindSlot(k), i, j);
    FillBind(Run(start, actions), slots, session, i, j, k);
    QuietAction(start, actions, Bind(k), session);
    FillingExtends(start, slots, BindSlot(k), session, i, j);
  }

  lemma FillingDecision(start: State, slots: seq<Slot>, session: string, i: nat, j: nat, k: nat)
    requires Filling(start, slots, session, i, j) && WellFormed(slots) && i != j
    requires LookSlot(k) in slots && DecideSlot(k) !in slots
    requires k == i ==> DecideSlot(j) !in slots && i in OursIn(slots, session)
    requires k == j ==> i in Pending(slots, session) && j in OursIn(slots, session)
    ensures Filling(start, slots + [DecideSlot(k)], session, i, j)
  {
    var actions, a := Fill(slots, i, j), Decide(k, OutcomeFor(k, i, j));
    var s := Run(start, actions);
    LooksHaveArrived(slots);
    PendingDecided(slots, session);
    FillOneMore(slots, DecideSlot(k), i, j);
    FillCanDecide(s, slots, session, i, j, k);
    FillDecide(s, slots, session, i, j, k);
    MembersOneMore(slots, DecideSlot(k), DecideSlot(i));
    MembersOneMore(slots, DecideSlot(k), DecideSlot(j));
    OneMore(start, actions, a, session);
    ScheduleOneMore(actions, a);
    assert Decides(s, a, session) <==> k == i || k == j;
    if k == j {
      assert StageFits(s.seekers[j].stage, slots, j, i, j);
      PairQualifies("a", s.seekers[j].req);
      assert Splits(s, a, session, Some("a"));
    }
  }

  lemma {:induction false} FillingRuns(start: State, slots: seq<Slot>, session: string, i: nat, j: nat)
    requires Fresh(start) && WellFormed(slots) && Staged(slots, session, i, j) && i != j
    ensures Filling(start, slots, session, i, j)
  {
    if slots != [] {
      var before, x := slots[..|slots| - 1], slots[|slots| - 1];
      assert slots == before + [x];
      FillingRuns(start, before, session, i, j);
      match x
      case Arrival(_, _, _) => FillingArrival(start, before, session, i, j, x);
      case LookSlot(k) => FillingLook(start, before, session, i, j, k);
      case DecideSlot(k) => FillingDecision(start, before, session, i, j, k);
      case BindSlot(k) => FillingBind(start, before, session, i, j, k);
    }
  }

  // ---- The two that split ----

  lemma {:induction false} StagedBefore(slots: seq<Slot>, session: string, i: nat, j: nat)
    requires WellFormed(slots) && DecideSlot(j) !in slots && (DecideSlot(i) in slots ==> i in OursIn(slots, session))
    ensures Staged(slots, session, i, j)
  {
    if slots != [] {
      var before, x := slots[..|slots| - 1], slots[|slots| - 1];
      assert slots == before + [x];
      MembersOneMore(before, x, DecideSlot(i));
      MembersOneMore(before, x, DecideSlot(j));
      SlotsOneMore(before, x, session);
      OursHaveArrived(before, session);
      LooksHaveArrived(before);
      StagedBefore(before, session, i, j);
    }
  }

  /** A schedule out of turn has two selections of the session, one pending when the other decides. */
  lemma {:induction false} OutOfTurnPair(slots: seq<Slot>, session: string) returns (i: nat, j: nat)
    requires WellFormed(slots) && !InTurn(slots, session)
    ensures i != j && Staged(slots, session, i, j) && DecideSlot(i) in slots && DecideSlot(j) in slots
  {
    var before, x := slots[..|slots| - 1], slots[|slots| - 1];
    assert slots == before + [x];
    PendingDecided(before, session);
    if !InTurn(before, session) {
      i, j := OutOfTurnPair(before, session);
    } else {
      j := x.i;
      i :| i in Pending(before, session);
      StagedBefore(before, session, i, j);
    }
  }

  /**
   Exactly which schedules keep a session: those in which none of its selections
   decides between another's decision and its write.
   */
  lemma KeptExactlyInTurn(slots: seq<Slot>, session: string)
    requires WellFormed(slots) && session != ""
    ensures Keeps(slots, session) <==> InTurn(slots, session)
  {
    if InTurn(slots, session) {
      forall s, actions | Fresh(s) && Legal(s, actions) && Schedule(actions) == slots ensures NeverSplits(s, actions, session) {
        KeptInTurn(s, actions, session);
      }
    } else {
      var start := State(NONE, map[], []);
      var i, j := OutOfTurnPair(slots, session);
      FillingRuns(start, slots, session, i, j);
      assert Fresh(start) && !NeverSplits(start, Fill(slots, i, j), session);
    }
  }

  // ---- The race ----

  lemma {:induction false} InTurnPrefix(slots: seq<Slot>, more: seq<Slot>, session: string)
    requires InTurn(slots + more, session)
    ensures InTurn(slots, session)
    decreases |more|
  {
    if more == [] {
      assert slots + more == slots;
    } else {
      var all := slots + more;
      assert all[..|all| - 1] == slots + more[..|more| - 1];
      InTurnPrefix(slots, more[..|more| - 1], session);
    }
  }

  lemma {:induction false} StaysPending(slots: seq<Slot>, more: seq<Slot>, session: string, i: nat)
    requires i in Pending(slots, session) && BindSlot(i) !in more
    ensures i in Pending(slots + more, session)
    decreases |more|
  {
    if more == [] {
      assert slots + more == slots;
    } else {
      var before, x := more[..|more| - 1], more[|more| - 1];
      assert slots + more == (slots + before) + [x];
      StaysPending(slots, before, session, i);
      SlotsOneMore(slots + before, x, session);
    }
  }

  /**
   Whenever a selection of the session decides between another's decision and its
   write, some run of that schedule splits the session between two providers that
   would each have served it.
   */
  lemma RaceSplitsASession(before: seq<Slot>, i: nat, between: seq<Slot>, j: nat, rest: seq<Slot>, session: string)
    requires var decided := before + [DecideSlot(i)] + between;
      && WellFormed(decided + [DecideSlot(j)] + rest) && session != ""
      && i in OursIn(before, session) && j in OursIn(decided, session) && BindSlot(i) !in between
    ensures !Keeps(before + [DecideSlot(i)] + between + [DecideSlot(j)] + rest, session)
  {
    var decided := before + [DecideSlot(i)] + between;
    var slots := decided + [DecideSlot(j)] + rest;
    SlotsOneMore(before, DecideSlot(i), session);
    StaysPending(before + [DecideSlot(i)], between, session, i);
    SlotsOneMore(decided, DecideSlot(j), session);
    if InTurn(slots, session) {
      InTurnPrefix(decided + [DecideSlot(j)], rest, session);
    }
    KeptExactlyInTurn(slots, session);
  }
}
