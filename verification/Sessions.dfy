/**
 Sticky sessions over every interleaving: the snapshot's read, the binding's read
 and the binding's write are separate steps of a selection, and any number of
 selections of one session may be between them.
 */
module Sessions {
  import opened Tables
  import opened Selection

  /** Where a selection stands: before its snapshot, before the binding's read, before the binding's write, or done. */
  datatype Stage = Begun | Looked(snap: Snapshot) | Drawn(snap: Snapshot, outcome: Outcome) | Done(snap: Snapshot, outcome: Outcome)

  datatype Seeker = Seeker(req: Request, rand: nat -> nat, nanos: nat, stage: Stage)

  datatype State = State(snapshot: Snapshot, sticky: Sticky, seekers: seq<Seeker>)

  datatype Action =
    | Arrive(req: Request, rand: nat -> nat, nanos: nat)
    | Publish(snap: Snapshot)
    | Look(i: nat)
    | Decide(i: nat, outcome: Outcome)
    | Bind(i: nat)

  function Advanced(s: State, i: nat, stage: Stage): State
    requires i < |s.seekers|
  {
    s.(seekers := s.seekers[i := s.seekers[i].(stage := stage)])
  }

  /** The action can happen: a decision has to be one the selection may make with the binding it reads. */
  ghost predicate Can(s: State, a: Action) {
    match a
    case Arrive(_, rand, _) => Intn(rand)
    case Publish(snap) => NamesAgree(snap)
    case Look(i) => i < |s.seekers| && s.seekers[i].stage.Begun?
    case Decide(i, outcome) =>
      && i < |s.seekers| && s.seekers[i].stage.Looked?
      && Answers(s.seekers[i].stage.snap, s.sticky, s.seekers[i].req, s.seekers[i].rand, s.seekers[i].nanos, outcome)
    case Bind(i) => i < |s.seekers| && s.seekers[i].stage.Drawn? && s.seekers[i].stage.outcome.Selected?
  }

  ghost function Next(s: State, a: Action): State {
    if !Can(s, a) then s
    else
      match a
      case Arrive(req, rand, nanos) => s.(seekers := s.seekers + [Seeker(req, rand, nanos, Begun)])
      case Publish(snap) => s.(snapshot := snap)
      case Look(i) => Advanced(s, i, Looked(s.snapshot))
      case Decide(i, outcome) =>
        var snap := s.seekers[i].stage.snap;
        Advanced(s, i, if Binds(snap, s.sticky, s.seekers[i].req, outcome) then Drawn(snap, outcome) else Done(snap, outcome))
      case Bind(i) =>
        var th := s.seekers[i];
        Advanced(s, i, Done(th.stage.snap, th.stage.outcome)).(sticky := s.sticky[th.req.session := th.stage.outcome.provider.name])
  }

  ghost function Run(s: State, actions: seq<Action>): State {
    if actions == [] then s else Next(Run(s, actions[..|actions| - 1]), actions[|actions| - 1])
  }

  /** A gateway that has just started. */
  predicate Fresh(s: State) { NamesAgree(s.snapshot) && s.sticky == map[] && s.seekers == [] }

  // ---- A selection undisturbed ----

  /** A new selection's steps. */
  function StepsOf(i: nat, req: Request, rand: nat -> nat, nanos: nat, outcome: Outcome): seq<Action> {
    [Arrive(req, rand, nanos), Look(i), Decide(i, outcome), Bind(i)]
  }

  /** With nothing between its steps, a selection is the one step that Selects describes. */
  lemma UndisturbedSelects(s: State, req: Request, rand: nat -> nat, nanos: nat, outcome: Outcome, sticky': Sticky)
    requires Intn(rand) && Selects(s.snapshot, s.sticky, req, rand, nanos, outcome, sticky')
    ensures Run(s, StepsOf(|s.seekers|, req, rand, nanos, outcome))
         == s.(sticky := sticky', seekers := s.seekers + [Seeker(req, rand, nanos, Done(s.snapshot, outcome))])
  {
    var i, th := |s.seekers|, Seeker(req, rand, nanos, Begun);
    var arrive, look, decide, bind := Arrive(req, rand, nanos), Look(i), Decide(i, outcome), Bind(i);
    var s1, s2 := s.(seekers := s.seekers + [th]), s.(seekers := s.seekers + [th.(stage := Looked(s.snapshot))]);
    RunOfFour(s, arrive, look, decide, bind);
    assert Next(s, arrive) == s1;
    LastAdvanced(s.seekers, th, th.(stage := Looked(s.snapshot)));
    assert Next(s1, look) == s2;
    UndisturbedEnds(s, s2, th.(stage := Looked(s.snapshot)), outcome, sticky');
  }

  lemma {:induction false} RunAppend(s: State, first: seq<Action>, later: seq<Action>)
    ensures Run(s, first + later) == Run(Run(s, first), later)
    decreases |later|
  {
    if later == [] {
      assert first + later == first;
    } else {
      var n := |later| - 1;
      RunAppend(s, first, later[..n]);
      assert (first + later)[..|first + later| - 1] == first + later[..n];
    }
  }

  lemma RunOfFour(s: State, a: Action, b: Action, c: Action, d: Action)
    ensures Run(s, [a, b, c, d]) == Next(Next(Next(Next(s, a), b), c), d)
  {
    RunOfTwo(s, a, b);
    RunOfTwo(Run(s, [a, b]), c, d);
    RunAppend(s, [a, b], [c, d]);
    assert [a, b] + [c, d] == [a, b, c, d];
  }

  lemma RunOfTwo(s: State, a: Action, b: Action)
    ensures Run(s, [a, b]) == Next(Next(s, a), b)
  {
    assert [a, b][..1] == [a] && [a][..0] == [];
    assert Run(s, [a]) == Next(s, a);
  }

  lemma LastAdvanced(seekers: seq<Seeker>, th: Seeker, after: Seeker)
    ensures (seekers + [th])[|seekers| := after] == seekers + [after]
  {
  }

  lemma UndisturbedEnds(s: State, looked: State, th: Seeker, outcome: Outcome, sticky': Sticky)
    requires th.stage == Looked(s.snapshot) && looked == s.(seekers := s.seekers + [th])
    requires Selects(s.snapshot, s.sticky, th.req, th.rand, th.nanos, outcome, sticky')
    ensures Next(Next(looked, Decide(|s.seekers|, outcome)), Bind(|s.seekers|))
         == s.(sticky := sticky', seekers := s.seekers + [th.(stage := Done(s.snapshot, outcome))])
  {
    var i := |s.seekers|;
    var drawn, done := th.(stage := Drawn(s.snapshot, outcome)), th.(stage := Done(s.snapshot, outcome));
    LastAdvanced(s.seekers, th, drawn);
    LastAdvanced(s.seekers, th, done);
    LastAdvanced(s.seekers, drawn, done);
    if Binds(s.snapshot, s.sticky, th.req, outcome) {
      assert Next(looked, Decide(i, outcome)) == s.(seekers := s.seekers + [drawn]);
    } else {
      assert Next(looked, Decide(i, outcome)) == s.(seekers := s.seekers + [done]);
    }
  }

  // ---- Every state ----

  /** The selection returned this provider to a request of the session, unforced. */
  predicate Returned(th: Seeker, session: string, provider: string) {
    && th.req.session == session && th.req.forced == ""
    && th.stage.Done? && th.stage.outcome.Selected? && th.stage.outcome.provider.name == provider
  }

  predicate SomeReturned(seekers: seq<Seeker>, session: string, provider: string) {
    exists i :: 0 <= i < |seekers| && Returned(seekers[i], session, provider)
  }

  /** What an answer is, by the snapshot the selection looked at. */
  ghost predicate SoundAnswer(th: Seeker, snap: Snapshot, outcome: Outcome) {
    && NamesAgree(snap)
    && (outcome.Selected? ==>
         && Qualifies(snap, outcome.provider.name, th.req.model, th.req.now) && outcome.provider == snap.providers[outcome.provider.name]
         && (th.req.forced != "" ==> outcome.provider.name == th.req.forced)
         && outcome.key in outcome.provider.keys && LiveKey(outcome.key, th.req.now))
    && (th.req.forced == "" ==> (outcome.Unavailable? <==> forall name :: !Qualifies(snap, name, th.req.model, th.req.now)))
    && (th.req.forced != "" ==> (outcome.Unavailable? <==> !Qualifies(snap, th.req.forced, th.req.model, th.req.now)))
  }

  ghost predicate Sound(th: Seeker) {
    match th.stage
    case Begun => true
    case Looked(snap) => NamesAgree(snap)
    case Drawn(snap, outcome) => SoundAnswer(th, snap, outcome) && outcome.Selected? && th.req.forced == "" && th.req.session != ""
    case Done(snap, outcome) => SoundAnswer(th, snap, outcome)
  }

  /** The invariant: answers are sound, and each binding is the answer of an unforced selection of its session. */
  ghost predicate Consistent(s: State) {
    && NamesAgree(s.snapshot)
    && (forall i :: 0 <= i < |s.seekers| ==> Sound(s.seekers[i]))
    && forall session :: session in s.sticky ==> session != "" && SomeReturned(s.seekers, session, s.sticky[session])
  }

  lemma AnswerIsSound(th: Seeker, snap: Snapshot, sticky: Sticky, outcome: Outcome)
    requires NamesAgree(snap) && Answers(snap, sticky, th.req, th.rand, th.nanos, outcome)
    ensures SoundAnswer(th, snap, outcome)
  {
    var sticky' := if Binds(snap, sticky, th.req, outcome) then sticky[th.req.session := outcome.provider.name] else sticky;
    SelectionSoundAndComplete(snap, sticky, th.req, th.rand, th.nanos, outcome, sticky');
  }

  /** A selection that was done stays so when another, or it itself, advances from a stage before. */
  lemma ReturnedStays(seekers: seq<Seeker>, i: nat, th: Seeker, session: string, provider: string)
    requires i < |seekers| && !seekers[i].stage.Done? && SomeReturned(seekers, session, provider)
    ensures SomeReturned(seekers[i := th], session, provider)
  {
    var j :| 0 <= j < |seekers| && Returned(seekers[j], session, provider);
    assert seekers[i := th][j] == seekers[j];
  }

  lemma AdvanceKeeps(s: State, i: nat, stage: Stage)
    requires Consistent(s) && i < |s.seekers| && !s.seekers[i].stage.Done? && Sound(s.seekers[i].(stage := stage))
    ensures Consistent(Advanced(s, i, stage))
  {
    forall session | session in s.sticky ensures SomeReturned(Advanced(s, i, stage).seekers, session, s.sticky[session]) {
      ReturnedStays(s.seekers, i, s.seekers[i].(stage := stage), session, s.sticky[session]);
    }
  }

  lemma BindKeeps(s: State, i: nat)
    requires Consistent(s) && Can(s, Bind(i))
    ensures Consistent(Next(s, Bind(i)))
  {
    var th := s.seekers[i];
    var done := Advanced(s, i, Done(th.stage.snap, th.stage.outcome));
    assert Sound(th);
    AdvanceKeeps(s, i, Done(th.stage.snap, th.stage.outcome));
    assert Returned(done.seekers[i], th.req.session, th.stage.outcome.provider.name);
    BoundToReturned(done, th.req.session, th.stage.outcome.provider.name);
  }

  lemma BoundToReturned(s: State, session: string, provider: string)
    requires Consistent(s) && session != "" && SomeReturned(s.seekers, session, provider)
    ensures Consistent(s.(sticky := s.sticky[session := provider]))
  {
  }

  lemma ArrivalKeeps(s: State, th: Seeker)
    requires Consistent(s) && th.stage.Begun?
    ensures Consistent(s.(seekers := s.seekers + [th]))
  {
    forall session | session in s.sticky ensures SomeReturned(s.seekers + [th], session, s.sticky[session]) {
      var j :| 0 <= j < |s.seekers| && Returned(s.seekers[j], session, s.sticky[session]);
      assert (s.seekers + [th])[j] == s.seekers[j];
    }
  }

  lemma StepKeepsConsistent(s: State, a: Action)
    requires Consistent(s)
    ensures Consistent(Next(s, a))
  {
    if Can(s, a) {
      match a
      case Arrive(req, rand, nanos) => ArrivalKeeps(s, Seeker(req, rand, nanos, Begun));
      case Publish(_) =>
      case Look(i) => AdvanceKeeps(s, i, Looked(s.snapshot));
      case Decide(i, outcome) =>
        AnswerIsSound(s.seekers[i], s.seekers[i].stage.snap, s.sticky, outcome);
        AdvanceKeeps(s, i, Next(s, a).seekers[i].stage);
      case Bind(i) => BindKeeps(s, i);
    }
  }

  lemma {:induction false} EveryStateConsistent(s: State, actions: seq<Action>)
    requires Fresh(s)
    ensures Consistent(Run(s, actions))
  {
    if actions != [] {
      EveryStateConsistent(s, actions[..|actions| - 1]);
      StepKeepsConsistent(Run(s, actions[..|actions| - 1]), actions[|actions| - 1]);
    }
  }

  /**
   In every reachable state of any interleaving, a session's binding names a provider
   that an unforced selection of that session returned, one that qualified in the
   snapshot that selection looked at.
   */
  lemma BindingWasReturned(s: State, actions: seq<Action>, session: string)
    requires Fresh(s) && session in Run(s, actions).sticky
    ensures var now := Run(s, actions);
            exists i :: 0 <= i < |now.seekers| && Returned(now.seekers[i], session, now.sticky[session])
              && Qualifies(now.seekers[i].stage.snap, now.sticky[session], now.seekers[i].req.model, now.seekers[i].req.now)
  {
    EveryStateConsistent(s, actions);
    var now := Run(s, actions);
    var i :| 0 <= i < |now.seekers| && Returned(now.seekers[i], session, now.sticky[session]);
    assert Sound(now.seekers[i]);
  }

  /** A selection leaves the provider it read its session bound to only when that provider does not qualify. */
  lemma LeavesOnlyUnavailable(s: State, i: nat, outcome: Outcome)
    requires Consistent(s) && Can(s, Decide(i, outcome)) && outcome.Selected?
    requires var req := s.seekers[i].req;
      req.forced == "" && req.session in s.sticky && outcome.provider.name != s.sticky[req.session]
    ensures var req := s.seekers[i].req; !Qualifies(s.seekers[i].stage.snap, s.sticky[req.session], req.model, req.now)
  {
    assert Sound(s.seekers[i]);
  }
}
