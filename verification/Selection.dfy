/**
 Choosing a provider and one of its keys for a request: forced providers,
 sticky sessions, the weighted draw over the candidates, and the live key.
 */
module Selection {
  import opened Base
  import opened Clock
  import opened Sums
  import opened Tables

  // ---- Qualifying ----

  method SupportsModel(models: seq<string>, model: string) returns (ok: bool)
    ensures ok == Supports(models, model)
  {
    if |models| == 0 {
      return true;
    }
    for i := 0 to |models|
      invariant model !in models[..i]
    {
      if models[i] == model {
        return true;
      }
    }
    return false;
  }

  /** An empty model list supports every model. */
  predicate Supports(models: seq<string>, model: string) {
    models == [] || model in models
  }

  /** now.After(k.CooldownUntil) */
  predicate LiveKey(k: ProviderKeyState, now: Time) {
    k.enabled && now > k.cooldownUntil
  }

  predicate HasLive(p: ProviderState, now: Time) {
    exists k :: k in p.keys && LiveKey(k, now)
  }

  /** The provider of that name may serve the model now. */
  predicate Qualifies(snap: Snapshot, name: string, model: string, now: Time) {
    && name in snap.providers
    && snap.providers[name].enabled
    && Supports(snap.providers[name].models, model)
    && HasLive(snap.providers[name], now)
  }

  method HasLiveKey(p: ProviderState, now: Time) returns (live: bool)
    ensures live == HasLive(p, now)
  {
    for i := 0 to |p.keys|
      invariant forall j :: 0 <= j < i ==> !LiveKey(p.keys[j], now)
    {
      if p.keys[i].enabled && now > p.keys[i].cooldownUntil {
        assert p.keys[i] in p.keys && LiveKey(p.keys[i], now);
        return true;
      }
    }
    return false;
  }

  function LiveKeys(p: ProviderState, now: Time): seq<ProviderKeyState> {
    Filter(p.keys, (k: ProviderKeyState) => LiveKey(k, now))
  }

  lemma LiveKeysMembers(p: ProviderState, now: Time)
    ensures forall k :: k in LiveKeys(p, now) <==> k in p.keys && LiveKey(k, now)
    ensures LiveKeys(p, now) != [] <==> HasLive(p, now)
  {
    FilterMembers(p.keys, (k: ProviderKeyState) => LiveKey(k, now));
    if HasLive(p, now) {
      var k :| k in p.keys && LiveKey(k, now);
      assert k in LiveKeys(p, now);
    }
    assert LiveKeys(p, now) != [] ==> LiveKeys(p, now)[0] in LiveKeys(p, now);
  }

  /** The live key at index `nanos` modulo their number, and an error exactly when there is none. */
  method PickProviderKey(p: ProviderState, now: Time, nanos: nat) returns (key: Option<ProviderKeyState>)
    ensures key.None? <==> !HasLive(p, now)
    ensures key.Some? ==> LiveKeys(p, now) != [] && key.value == LiveKeys(p, now)[nanos % |LiveKeys(p, now)|]
  {
    var keep := (k: ProviderKeyState) => LiveKey(k, now);
    var live: seq<ProviderKeyState> := [];
    for i := 0 to |p.keys|
      invariant live == Filter(p.keys[..i], keep)
    {
      assert p.keys[..i + 1] == p.keys[..i] + [p.keys[i]];
      FilterAppend(p.keys[..i], [p.keys[i]], keep);
      if p.keys[i].enabled && now > p.keys[i].cooldownUntil {
        live := live + [p.keys[i]];
      }
    }
    assert p.keys[..|p.keys|] == p.keys;
    LiveKeysMembers(p, now);
    if |live| == 0 {
      return None;
    }
    return Some(live[nanos % |live|]);
  }

  // ---- The weighted draw ----

  /** A weight that is not positive counts as one. */
  function Weight(p: ProviderState): (w: int)
    ensures w >= 1
  {
    if p.weight <= 0 then 1 else p.weight
  }

  function Total(items: seq<ProviderState>): (t: int)
    ensures t >= |items|
  {
    if items == [] then 0 else Weight(items[0]) + Total(items[1..])
  }

  /** The candidate whose stretch of [0, total) the draw falls in. */
  function Pick(items: seq<ProviderState>, r: nat): (p: ProviderState)
    requires r < Total(items)
    ensures p in items
  {
    if r < Weight(items[0]) then items[0] else Pick(items[1..], r - Weight(items[0]))
  }

  /** rand.Intn: any function that answers below its argument. */
  ghost predicate Intn(rand: nat -> nat) {
    forall n: nat :: n > 0 ==> rand(n) < n
  }

  method TotalWeight(items: seq<ProviderState>) returns (total: nat)
    ensures total == Total(items)
  {
    total := 0;
    for i := 0 to |items|
      invariant total + Total(items[i..]) == Total(items)
    {
      if items[i].weight <= 0 {
        total := total + 1;
      } else {
        total := total + items[i].weight;
      }
      assert items[i..][1..] == items[i + 1..];
    }
  }

  /** The walk to a draw; only a draw past the total would fall through to the last item. */
  method WalkTo(items: seq<ProviderState>, r: nat) returns (p: ProviderState)
    requires items != []
    ensures p == if r < Total(items) then Pick(items, r) else items[|items| - 1]
  {
    var acc := 0;
    for i := 0 to |items|
      invariant acc + Total(items[i..]) == Total(items)
      invariant acc <= r
      invariant r < Total(items) ==> Pick(items[i..], r - acc) == Pick(items, r)
    {
      var w := items[i].weight;
      if w <= 0 {
        w := 1;
      }
      assert items[i..][1..] == items[i + 1..];
      acc := acc + w;
      if r < acc {
        return items[i];
      }
    }
    return items[|items| - 1];
  }

  method WeightedProviderPick(items: seq<ProviderState>, rand: nat -> nat) returns (p: ProviderState)
    requires items != [] && Intn(rand)
    ensures p == Pick(items, rand(Total(items)))
  {
    if |items| == 1 {
      assert Total(items[1..]) == 0;
      return items[0];
    }
    var total := TotalWeight(items);
    assert total > 0;
    p := WalkTo(items, rand(total));
  }

  /** The draws that return `p`. */
  function Draws(items: seq<ProviderState>, p: ProviderState): set<nat> {
    set r: nat | r < Total(items) && Pick(items, r) == p
  }

  function Below(n: nat): (s: set<nat>)
    ensures forall r: nat :: r in s <==> r < n
    ensures |s| == n
  {
    if n == 0 then {} else Below(n - 1) + {n - 1}
  }

  function Shift(s: set<nat>, step: nat): set<nat> {
    set r | r in s :: r + step
  }

  lemma {:induction false} ShiftSize(s: set<nat>, step: nat)
    ensures |Shift(s, step)| == |s|
    decreases |s|
  {
    if s != {} {
      var x :| x in s;
      ShiftSize(s - {x}, step);
      forall r | r in Shift(s, step) ensures r in Shift(s - {x}, step) + {x + step} {
        assert r - step == x || r - step in s - {x};
      }
      assert Shift(s, step) == Shift(s - {x}, step) + {x + step};
      assert x + step !in Shift(s - {x}, step);
    }
  }

  /** The draws of `p` that its place at the head of the list accounts for. */
  function HeadDraws(items: seq<ProviderState>, p: ProviderState): set<nat>
    requires items != []
  {
    if items[0] == p then Below(Weight(p)) else {}
  }

  lemma DrawBelongs(items: seq<ProviderState>, p: ProviderState, r: nat)
    requires items != []
    ensures r in Draws(items, p) <==>
      if r < Weight(items[0]) then items[0] == p else r - Weight(items[0]) in Draws(items[1..], p)
  {
    assert Total(items) == Weight(items[0]) + Total(items[1..]);
    if r < Weight(items[0]) {
      assert Pick(items, r) == items[0];
    } else if r < Total(items) {
      assert Pick(items, r) == Pick(items[1..], r - Weight(items[0]));
    }
  }

  lemma DrawsSplit(items: seq<ProviderState>, p: ProviderState)
    requires items != []
    ensures Draws(items, p) == HeadDraws(items, p) + Shift(Draws(items[1..], p), Weight(items[0]))
    ensures HeadDraws(items, p) !! Shift(Draws(items[1..], p), Weight(items[0]))
  {
    var w := Weight(items[0]);
    var others := Shift(Draws(items[1..], p), w);
    forall r: nat ensures r in Draws(items, p) <==> r in HeadDraws(items, p) || r in others {
      DrawBelongs(items, p, r);
      assert r in others <==> r >= w && r - w in Draws(items[1..], p);
    }
  }

  lemma DrawsSize(items: seq<ProviderState>, p: ProviderState)
    requires items != []
    ensures |Draws(items, p)| == (if items[0] == p then Weight(p) else 0) + |Draws(items[1..], p)|
  {
    DrawsSplit(items, p);
    ShiftSize(Draws(items[1..], p), Weight(items[0]));
  }

  /**
   The draw is exact: a provider listed n times is returned for n times its weight
   of the draws, a weight that is not positive counting as one, and the draws are
   as many as the weights of all together.
   */
  lemma {:induction false} DrawsAreExact(items: seq<ProviderState>, p: ProviderState)
    ensures |Draws(items, p)| == multiset(items)[p] * (if p.weight > 0 then p.weight else 1)
    ensures Total(items) == Sum(items, (x: ProviderState) => if x.weight > 0 then x.weight else 1)
  {
    if items == [] {
      assert Draws(items, p) == {};
    } else {
      DrawsSize(items, p);
      DrawsAreExact(items[1..], p);
      OneMoreOf(items, p, Weight(p));
    }
  }

  lemma OneMoreOf(items: seq<ProviderState>, p: ProviderState, w: int)
    requires items != []
    ensures multiset(items)[p] * w == multiset(items[1..])[p] * w + if items[0] == p then w else 0
  {
    assert items == [items[0]] + items[1..];
    assert multiset(items)[p] == multiset(items[1..])[p] + if items[0] == p then 1 else 0;
  }

  lemma {:induction false} TotalIsSum(items: seq<ProviderState>)
    ensures Total(items) == Sum(items, Weight)
  {
    if items != [] {
      TotalIsSum(items[1..]);
    }
  }

  /** The order the map hands the candidates out in does not matter: total and share stay the same. */
  lemma DrawIgnoresOrder(items: seq<ProviderState>, shuffled: seq<ProviderState>, p: ProviderState)
    requires multiset(items) == multiset(shuffled)
    ensures Total(items) == Total(shuffled) && |Draws(items, p)| == |Draws(shuffled, p)|
  {
    TotalIsSum(items);
    TotalIsSum(shuffled);
    SumPermuted(items, shuffled, Weight);
    DrawsAreExact(items, p);
    DrawsAreExact(shuffled, p);
  }

  // ---- Selection ----

  /** A selection request; `session` is the trimmed sticky header, empty when absent. */
  datatype Request = Request(model: string, forced: string, session: string, now: Time)

  datatype Outcome = Selected(provider: ProviderState, key: ProviderKeyState) | Unavailable

  type Sticky = map<string, string>

  /** A list of the qualifying providers, each once, in some order. */
  ghost predicate ListsCandidates(items: seq<ProviderState>, names: seq<string>, snap: Snapshot, model: string, now: Time) {
    && |items| == |names|
    && (forall i, j :: 0 <= i < j < |names| ==> names[i] != names[j])
    && (forall i :: 0 <= i < |names| ==> names[i] in snap.providers && items[i] == snap.providers[names[i]])
    && (forall name :: name in names <==> Qualifies(snap, name, model, now))
  }

  predicate KeyOf(p: ProviderState, k: ProviderKeyState, now: Time, nanos: nat) {
    LiveKeys(p, now) != [] && k == LiveKeys(p, now)[nanos % |LiveKeys(p, now)|]
  }

  /** The session's binding decides: it names a provider that qualifies. */
  predicate StickyHit(snap: Snapshot, sticky: Sticky, req: Request) {
    req.session != "" && req.session in sticky && Qualifies(snap, sticky[req.session], req.model, req.now)
  }

  /** The provider a request's outcome comes from, where one is fixed before any draw. */
  function FixedProvider(snap: Snapshot, sticky: Sticky, req: Request): Option<string> {
    if req.forced != "" then Some(req.forced)
    else if StickyHit(snap, sticky, req) then Some(sticky[req.session])
    else None
  }

  /** The outcome is a weighted draw over the qualifying providers. */
  ghost predicate DrawnFrom(snap: Snapshot, req: Request, rand: nat -> nat, p: ProviderState)
  {
    exists items, names ::
      && ListsCandidates(items, names, snap, req.model, req.now)
      && items != [] && rand(Total(items)) < Total(items)
      && p == Pick(items, rand(Total(items)))
  }

  /** What one selection may answer, with the binding it read. */
  ghost predicate Answers(snap: Snapshot, sticky: Sticky, req: Request, rand: nat -> nat, nanos: nat, outcome: Outcome) {
    match FixedProvider(snap, sticky, req)
    case Some(name) =>
      && (outcome.Selected? <==> Qualifies(snap, name, req.model, req.now))
      && (outcome.Selected? ==> outcome.provider == snap.providers[name] && KeyOf(outcome.provider, outcome.key, req.now, nanos))
    case None =>
      && (outcome.Selected? <==> exists name :: Qualifies(snap, name, req.model, req.now))
      && (outcome.Selected? ==>
           && DrawnFrom(snap, req, rand, outcome.provider)
           && KeyOf(outcome.provider, outcome.key, req.now, nanos))
  }

  /** A provider that was drawn is bound to the session, if there is one. */
  predicate Binds(snap: Snapshot, sticky: Sticky, req: Request, outcome: Outcome) {
    FixedProvider(snap, sticky, req).None? && outcome.Selected? && req.session != ""
  }

  /** What one selection may answer, and the bindings it leaves. */
  ghost predicate Selects(snap: Snapshot, sticky: Sticky, req: Request, rand: nat -> nat, nanos: nat,
                          outcome: Outcome, sticky': Sticky) {
    && Answers(snap, sticky, req, rand, nanos, outcome)
    && sticky' == if Binds(snap, sticky, req, outcome) then sticky[req.session := outcome.provider.name] else sticky
  }

  class Selector {
    var stickySession: map<string, string>

    constructor ()
      ensures stickySession == map[]
    {
      stickySession := map[];
    }

    method SelectProviderAndKey(snap: Snapshot, req: Request, rand: nat -> nat, nanos: nat) returns (outcome: Outcome)
      requires Intn(rand)
      modifies this
      ensures Selects(snap, old(stickySession), req, rand, nanos, outcome, stickySession)
    {
      if req.forced != "" {
        if req.forced !in snap.providers || !snap.providers[req.forced].enabled {
          return Unavailable;
        }
        var p := snap.providers[req.forced];
        var supported := SupportsModel(p.models, req.model);
        if !supported {
          return Unavailable;
        }
        var key := PickProviderKey(p, req.now, nanos);
        return if key.Some? then Selected(p, key.value) else Unavailable;
      }
      if req.session != "" && req.session in stickySession {
        var bound := stickySession[req.session];
        if bound in snap.providers && snap.providers[bound].enabled {
          var p := snap.providers[bound];
          var supported := SupportsModel(p.models, req.model);
          if supported {
            var key := PickProviderKey(p, req.now, nanos);
            if key.Some? {
              return Selected(p, key.value);
            }
          }
        }
      }
      var candidates, names := Candidates(snap, req.model, req.now);
      if |candidates| == 0 {
        assert forall name :: Qualifies(snap, name, req.model, req.now) ==> name in names;
        return Unavailable;
      }
      assert names[0] in names;
      var p := WeightedProviderPick(candidates, rand);
      CandidatesQualify(candidates, names, snap, req.model, req.now);
      var key := PickProviderKey(p, req.now, nanos);
      assert DrawnFrom(snap, req, rand, p);
      if req.session != "" {
        stickySession := stickySession[req.session := p.name];
      }
      outcome := Selected(p, key.value);
    }

    /** The loop over the provider map, whose order is not specified. */
    method Candidates(snap: Snapshot, model: string, now: Time) returns (items: seq<ProviderState>, ghost names: seq<string>)
      ensures ListsCandidates(items, names, snap, model, now)
    {
      items, names := [], [];
      var rest := snap.providers.Keys;
      while rest != {}
        invariant rest <= snap.providers.Keys
        invariant |items| == |names|
        invariant forall i, j :: 0 <= i < j < |names| ==> names[i] != names[j]
        invariant forall i :: 0 <= i < |names| ==> names[i] in snap.providers && items[i] == snap.providers[names[i]]
        invariant forall name :: name in names <==> name !in rest && Qualifies(snap, name, model, now)
        decreases |rest|
      {
        var name :| name in rest;
        rest := rest - {name};
        var p := snap.providers[name];
        var supported := SupportsModel(p.models, model);
        if p.enabled && supported {
          var live := HasLiveKey(p, now);
          if live {
            items, names := items + [p], names + [name];
          }
        }
      }
    }
  }

  lemma CandidatesQualify(items: seq<ProviderState>, names: seq<string>, snap: Snapshot, model: string, now: Time)
    requires ListsCandidates(items, names, snap, model, now)
    ensures forall p :: p in items ==> exists name :: Qualifies(snap, name, model, now) && p == snap.providers[name]
  {
    forall p | p in items ensures exists name :: Qualifies(snap, name, model, now) && p == snap.providers[name] {
      var i :| 0 <= i < |items| && items[i] == p;
      assert names[i] in names;
    }
  }

  /**
   Sound and complete: what is returned is an enabled provider supporting the
   model with an enabled, non-cooling key of its own; an unforced selection
   fails exactly when no provider qualifies, whatever the binding; a forced one
   exactly when the forced provider does not.
   */
  lemma SelectionSoundAndComplete(snap: Snapshot, sticky: Sticky, req: Request, rand: nat -> nat, nanos: nat,
                                  outcome: Outcome, sticky': Sticky)
    requires Selects(snap, sticky, req, rand, nanos, outcome, sticky')
    ensures outcome.Selected? ==>
      && (exists name :: Qualifies(snap, name, req.model, req.now) && outcome.provider == snap.providers[name]
                         && (req.forced != "" ==> name == req.forced))
      && outcome.key in outcome.provider.keys && LiveKey(outcome.key, req.now)
    ensures req.forced == "" ==> (outcome.Unavailable? <==> forall name :: !Qualifies(snap, name, req.model, req.now))
    ensures req.forced != "" ==> (outcome.Unavailable? <==> !Qualifies(snap, req.forced, req.model, req.now))
  {
    if outcome.Selected? {
      LiveKeysMembers(outcome.provider, req.now);
      assert outcome.key in LiveKeys(outcome.provider, req.now);
      if FixedProvider(snap, sticky, req).None? {
        var items, names :|
          && ListsCandidates(items, names, snap, req.model, req.now)
          && items != [] && rand(Total(items)) < Total(items)
          && outcome.provider == Pick(items, rand(Total(items)));
        CandidatesQualify(items, names, snap, req.model, req.now);
      }
    }
  }

  // ---- Stickiness over runs ----

  /** One selection of a run, with everything it depended on. */
  datatype Event = Event(snap: Snapshot, req: Request, rand: nat -> nat, nanos: nat, outcome: Outcome)

  /** A sequential run: `binds[i]` are the bindings before event i. */
  ghost predicate Runs(events: seq<Event>, binds: seq<Sticky>) {
    && |binds| == |events| + 1
    && binds[0] == map[]
    && forall i :: 0 <= i < |events| ==>
         var e := events[i];
         Selects(e.snap, binds[i], e.req, e.rand, e.nanos, e.outcome, binds[i + 1])
  }

  /** Snapshot providers are stored under their own names. */
  predicate NamesAgree(snap: Snapshot) {
    forall name :: name in snap.providers ==> snap.providers[name].name == name
  }

  predicate Unforced(e: Event, session: string) {
    e.req.forced == "" && e.req.session == session && e.outcome.Selected?
  }

  /** The provider of the session's last successful unforced selection. */
  function LastProvider(events: seq<Event>, session: string): Option<string> {
    if events == [] then None
    else
      var last := events[|events| - 1];
      if Unforced(last, session) then Some(last.outcome.provider.name) else LastProvider(events[..|events| - 1], session)
  }

  function BindingOf(sticky: Sticky, session: string): Option<string> {
    if session in sticky then Some(sticky[session]) else None
  }

  /** A session's binding always names the provider its last successful unforced selection returned. */
  lemma {:induction false} BindingNamesLastProvider(events: seq<Event>, binds: seq<Sticky>, session: string)
    requires Runs(events, binds) && session != ""
    requires forall e :: e in events ==> NamesAgree(e.snap)
    ensures BindingOf(binds[|events|], session) == LastProvider(events, session)
  {
    if events != [] {
      var n := |events| - 1;
      var before, e := events[..n], events[n];
      assert binds[..n + 1][0] == map[] && Runs(before, binds[..n + 1]);
      BindingNamesLastProvider(before, binds[..n + 1], session);
      assert Selects(e.snap, binds[n], e.req, e.rand, e.nanos, e.outcome, binds[n + 1]);
      assert NamesAgree(e.snap);
    }
  }

  /** A session changes provider between two successes only when the one it is bound to does not qualify. */
  lemma ProviderChangesOnlyWhenUnavailable(events: seq<Event>, binds: seq<Sticky>, next: Event, after: Sticky)
    requires Runs(events, binds)
    requires Selects(next.snap, binds[|events|], next.req, next.rand, next.nanos, next.outcome, after)
    requires forall e :: e in events + [next] ==> NamesAgree(e.snap)
    requires next.req.session != "" && Unforced(next, next.req.session)
    ensures var last := LastProvider(events, next.req.session);
            last.Some? && next.outcome.provider.name != last.value ==> !Qualifies(next.snap, last.value, next.req.model, next.req.now)
  {
    assert forall e :: e in events ==> e in events + [next];
    assert NamesAgree(next.snap) by {
      assert next in events + [next];
    }
    BindingNamesLastProvider(events, binds, next.req.session);
  }

  /** A stretch of forced selections, however long and whatever they return, changes no binding. */
  lemma {:induction false} ForcedRunKeepsBindings(events: seq<Event>, binds: seq<Sticky>, from: nat, until: nat)
    requires Runs(events, binds) && from <= until <= |events|
    requires forall i :: from <= i < until ==> events[i].req.forced != ""
    ensures binds[until] == binds[from]
  {
    if from < until {
      ForcedRunKeepsBindings(events, binds, from, until - 1);
      var e := events[until - 1];
      assert Selects(e.snap, binds[until - 1], e.req, e.rand, e.nanos, e.outcome, binds[until - 1 + 1]);
    }
  }
}
