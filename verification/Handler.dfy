/**
 One request served alone: the state machine's steps by one thread, every input
 of theirs given by what the request meets from outside.  Only the selection is
 left a choice, and that has to be one the selection can make.
 */
module Handler {
  import opened Base
  import opened Billing
  import opened Clock
  import opened Gateway
  import opened Limiter
  import opened Tables
  import Selection
  import SnapshotView

  /** What a request meets from outside: clock readings, query orders, random draws and the upstream's reply. */
  datatype World = World(
    tenantEnabled: bool,
    firstPrices: seq<PriceRule>, secondPrices: seq<PriceRule>,
    userClock: Time, selectClock: Time, channelClock: Time, failureClock: Time,
    session: string, rand: nat -> nat, nanos: nat,
    scale: real, reply: Reply)

  /** The clock reading the call takes. */
  function ClockAt(w: World, p: Phase): Time {
    match p
    case UserLimit => w.userClock
    case Choose => w.selectClock
    case ChannelLimit => w.channelClock
    case RecordFailure(_) => w.failureClock
    case _ => 0
  }

  function InputAt(w: World, p: Phase, choice: Option<(string, nat)>): Input {
    Input(ClockAt(w, p), w.tenantEnabled, if p.Settle? then w.secondPrices else w.firstPrices, choice, w.scale, w.reply)
  }

  /** A request alone: the shared state, its thread, and the sticky bindings. */
  datatype Local = Local(shared: Shared, thread: Thread, sticky: Selection.Sticky)

  function SelectionRequest(w: World, th: Thread): Selection.Request {
    Selection.Request(th.model, th.forced, w.session, w.selectClock)
  }

  /** The choice is the pair the selection returns, and none only when it returns none. */
  predicate Chose(snap: Snapshot, th: Thread, now: Time, outcome: Selection.Outcome, choice: Option<(string, nat)>) {
    match outcome
    case Unavailable => choice == None
    case Selected(provider, key) =>
      && choice.Some?
      && var (name, index) := choice.value;
         && Offered(snap, th, name, index, now)
         && provider == snap.providers[name] && key == provider.keys[index]
  }

  ghost predicate Selecting(w: World, l: Local, choice: Option<(string, nat)>, sticky': Selection.Sticky) {
    exists outcome ::
      && Selection.Selects(l.shared.snapshot, l.sticky, SelectionRequest(w, l.thread), w.rand, w.nanos, outcome, sticky')
      && Chose(l.shared.snapshot, l.thread, w.selectClock, outcome, choice)
  }

  ghost predicate MovesWith(c: Config, w: World, l: Local, l': Local, choice: Option<(string, nat)>) {
    var input := InputAt(w, l.thread.phase, choice);
    && CanStep(c, l.shared, l.thread, input)
    && l'.shared == NextShared(c, l.shared, l.thread, input)
    && l'.thread == NextThread(c, l.shared, l.thread, input)
    && if l.thread.phase.Choose? then Selecting(w, l, choice, l'.sticky) else choice == None && l'.sticky == l.sticky
  }

  /** One step, taken in this world. */
  ghost predicate Move(c: Config, w: World, l: Local, l': Local) {
    exists choice :: MovesWith(c, w, l, l', choice)
  }

  ghost predicate Path(c: Config, w: World, path: seq<Local>) {
    |path| > 0 && forall i :: 0 <= i < |path| - 1 ==> Move(c, w, path[i], path[i + 1])
  }

  /** This world takes the request alone from one to the other. */
  ghost predicate LeadsTo(c: Config, w: World, from: Local, to: Local) {
    exists path :: Path(c, w, path) && path[0] == from && path[|path| - 1] == to
  }

  lemma LeadsToSelf(c: Config, w: World, l: Local)
    ensures LeadsTo(c, w, l, l)
  {
    assert Path(c, w, [l]);
  }

  lemma LeadsToMove(c: Config, w: World, from: Local, l: Local, l': Local)
    requires LeadsTo(c, w, from, l) && Move(c, w, l, l')
    ensures LeadsTo(c, w, from, l')
  {
    var path :| Path(c, w, path) && path[0] == from && path[|path| - 1] == l;
    assert Path(c, w, path + [l']);
  }

  /** A step other than the selection: it has its one input from the world. */
  lemma LeadsToNext(c: Config, w: World, from: Local, l: Local, shared: Shared, th: Thread)
    requires LeadsTo(c, w, from, l) && !l.thread.phase.Choose?
    requires var input := InputAt(w, l.thread.phase, None);
      && CanStep(c, l.shared, l.thread, input)
      && shared == NextShared(c, l.shared, l.thread, input) && th == NextThread(c, l.shared, l.thread, input)
    ensures LeadsTo(c, w, from, Local(shared, th, l.sticky))
  {
    assert MovesWith(c, w, l, Local(shared, th, l.sticky), None);
    LeadsToMove(c, w, from, l, Local(shared, th, l.sticky));
  }

  /** The calls that read the shared state without writing it. */
  predicate OnlyReads(p: Phase) {
    p.Authenticate? || p.RuleLoop? || p.Estimate? || p.CheckBalance? || p.Choose? || p.Forward? || p.Settle?
  }

  lemma ReadsLeaveShared(c: Config, s: Shared, th: Thread, input: Input)
    requires OnlyReads(th.phase)
    ensures NextShared(c, s, th, input) == s
  {
  }

  lemma LeadsToRead(c: Config, w: World, from: Local, l: Local, th: Thread)
    requires LeadsTo(c, w, from, l) && OnlyReads(l.thread.phase) && !l.thread.phase.Choose?
    requires CanStep(c, l.shared, l.thread, InputAt(w, l.thread.phase, None))
    requires th == NextThread(c, l.shared, l.thread, InputAt(w, l.thread.phase, None))
    ensures LeadsTo(c, w, from, l.(thread := th))
  {
    ReadsLeaveShared(c, l.shared, l.thread, InputAt(w, l.thread.phase, None));
    LeadsToNext(c, w, from, l, l.shared, th);
  }

  lemma LeadsToChoice(c: Config, w: World, from: Local, l: Local, choice: Option<(string, nat)>, th: Thread, sticky': Selection.Sticky)
    requires LeadsTo(c, w, from, l) && l.thread.phase.Choose? && Selecting(w, l, choice, sticky')
    requires th == AfterChoose(l.shared, l.thread, InputAt(w, Choose, choice))
    ensures LeadsTo(c, w, from, Local(l.shared, th, sticky'))
  {
    ReadsLeaveShared(c, l.shared, l.thread, InputAt(w, Choose, choice));
    assert MovesWith(c, w, l, Local(l.shared, th, sticky'), choice);
    LeadsToMove(c, w, from, l, Local(l.shared, th, sticky'));
  }

  lemma LeadsPastUserLimit(c: Config, w: World, from: Local, l: Local, shared: Shared, th: Thread)
    requires LeadsTo(c, w, from, l) && l.thread.phase.UserLimit? && l.thread.account.Some?
    requires var call := UserCall(l.thread, l.thread.account.value, w.userClock);
      && th == Go(l.thread, if Admits(l.shared.users, call) then Choose else Finished(Rejected))
      && shared == l.shared.(users := Limiter.After(l.shared.users, call))
    ensures LeadsTo(c, w, from, Local(shared, th, l.sticky))
  {
    assert shared == NextShared(c, l.shared, l.thread, InputAt(w, UserLimit, None));
    LeadsToNext(c, w, from, l, shared, th);
  }

  lemma LeadsPastChannelLimit(c: Config, w: World, from: Local, l: Local, shared: Shared, th: Thread)
    requires LeadsTo(c, w, from, l) && l.thread.phase.ChannelLimit? && Chosen(l.thread)
    requires var call := ChannelCall(l.thread, l.thread.provider.value, l.thread.key.value, w.channelClock, w.scale);
             var ok := Admits(l.shared.channels, call);
      && th == Go(l.thread, if ok then Forward else Finished(Rejected))
      && shared == l.shared.(channels := Limiter.After(l.shared.channels, call), admitted := if ok then l.shared.admitted + 1 else l.shared.admitted)
    ensures LeadsTo(c, w, from, Local(shared, th, l.sticky))
  {
    assert shared == NextShared(c, l.shared, l.thread, InputAt(w, ChannelLimit, None));
    LeadsToNext(c, w, from, l, shared, th);
  }

  // ---- A reload without a pause ----

  lemma LeadsThroughRead(c: Config, w: World, from: Local, l: Local, next: Phase, n: nat) returns (after: Local)
    requires LeadsTo(c, w, from, l) && l.thread.phase == Reload(n, next) && n < 5
    ensures after == l.(thread := AfterReload(l.shared, l.thread, n, next)) && LeadsTo(c, w, from, after)
  {
    after := l.(thread := AfterReload(l.shared, l.thread, n, next));
    assert NextShared(c, l.shared, l.thread, InputAt(w, l.thread.phase, None)) == l.shared;
    LeadsToNext(c, w, from, l, l.shared, after.thread);
  }

  lemma LeadsPastPublication(c: Config, w: World, from: Local, l: Local, next: Phase)
    requires LeadsTo(c, w, from, l) && l.thread.phase == Reload(5, next)
    ensures LeadsTo(c, w, from, Local(l.shared.(snapshot := SnapshotView.View(l.thread.read, c.decode)), Go(l.thread, next), l.sticky))
  {
    var shared := l.shared.(snapshot := SnapshotView.View(l.thread.read, c.decode));
    assert shared == NextShared(c, l.shared, l.thread, InputAt(w, l.thread.phase, None));
    LeadsToNext(c, w, from, l, shared, Go(l.thread, next));
  }

  /** The shared state with a write to the database, published. */
  function WithDatabase(c: Config, s: Shared, db: Database): Shared {
    s.(db := db, snapshot := SnapshotView.View(SnapshotView.ListingsOf(db), c.decode))
  }

  /** The reload's steps taken without a pause: five reads, then the view of what they all saw. */
  lemma LeadsThroughReload(c: Config, w: World, from: Local, l: Local, next: Phase)
    requires LeadsTo(c, w, from, l) && l.thread.phase == Reload(0, next)
    ensures LeadsTo(c, w, from, Local(WithDatabase(c, l.shared, l.shared.db),
                                      l.thread.(phase := next, read := SnapshotView.ListingsOf(l.shared.db)), l.sticky))
  {
    var l1 := LeadsThroughRead(c, w, from, l, next, 0);
    var l2 := LeadsThroughRead(c, w, from, l1, next, 1);
    var l3 := LeadsThroughRead(c, w, from, l2, next, 2);
    var l4 := LeadsThroughRead(c, w, from, l3, next, 3);
    var l5 := LeadsThroughRead(c, w, from, l4, next, 4);
    assert l5.thread == l.thread.(phase := Reload(5, next), read := SnapshotView.ListingsOf(l.shared.db));
    LeadsPastPublication(c, w, from, l5, next);
  }

  lemma LeadsPastWrite(c: Config, w: World, from: Local, l: Local, db: Database, th: Thread, next: Phase)
    requires LeadsTo(c, w, from, l) && (l.thread.phase.RecordFailure? || l.thread.phase.RecordSuccess? || l.thread.phase.Debit?)
    requires var input := InputAt(w, l.thread.phase, None);
      && db == NextDatabase(c, l.shared.db, l.thread, input.now)
      && th.(phase := Reload(0, next)) == NextThread(c, l.shared, l.thread, input)
    ensures LeadsTo(c, w, from, Local(WithDatabase(c, l.shared, db), th.(phase := next, read := SnapshotView.ListingsOf(db)), l.sticky))
  {
    var input := InputAt(w, l.thread.phase, None);
    var mid := Local(l.shared.(db := db), NextThread(c, l.shared, l.thread, input), l.sticky);
    assert mid.shared == NextShared(c, l.shared, l.thread, input);
    LeadsToNext(c, w, from, l, mid.shared, mid.thread);
    LeadsThroughReload(c, w, from, mid, next);
  }

  lemma LeadsPastUsage(c: Config, w: World, from: Local, l: Local, shared: Shared)
    requires LeadsTo(c, w, from, l) && l.thread.phase.AddUsage? && Chosen(l.thread)
    requires shared == l.shared.(db := l.shared.db.(usage := l.shared.db.usage + [UsageRow(l.thread)]))
    ensures LeadsTo(c, w, from, Local(shared, Go(l.thread, CountSuccess), l.sticky))
  {
    assert shared == NextShared(c, l.shared, l.thread, InputAt(w, AddUsage, None));
    LeadsToNext(c, w, from, l, shared, Go(l.thread, CountSuccess));
  }

  /** The call after a counter. */
  function AfterCount(th: Thread): Phase {
    if th.phase.CountFailure? then Finished(Failed)
    else if th.phase.CountSuccess? && th.charge > 0 then CountCharge
    else Finished(Served)
  }

  lemma LeadsPastCount(c: Config, w: World, from: Local, l: Local, shared: Shared)
    requires LeadsTo(c, w, from, l) && (l.thread.phase.CountFailure? || l.thread.phase.CountSuccess? || l.thread.phase.CountCharge?)
    requires shared == l.shared.(stats := NextStats(l.shared.stats, l.thread))
    ensures LeadsTo(c, w, from, Local(shared, Go(l.thread, AfterCount(l.thread)), l.sticky))
  {
    assert shared == NextShared(c, l.shared, l.thread, InputAt(w, l.thread.phase, None));
    LeadsToNext(c, w, from, l, shared, Go(l.thread, AfterCount(l.thread)));
  }

  // ---- A request alone is a run of the machine ----

  /** From one state to the other by some run of the machine. */
  ghost predicate RunsTo(c: Config, from: State, last: State) {
    exists states, actions :: Trace(c, states, actions) && states[0] == from && states[|actions|] == last
  }

  lemma RunExtends(c: Config, from: State, mid: State, a: Action)
    requires RunsTo(c, from, mid)
    ensures RunsTo(c, from, Next(c, mid, a))
  {
    var states, actions :| Trace(c, states, actions) && states[0] == from && states[|actions|] == mid;
    assert Trace(c, states + [Next(c, mid, a)], actions + [a]);
  }

  lemma MoveIsAStep(c: Config, w: World, others: seq<Thread>, l: Local, l': Local) returns (a: Action)
    requires Move(c, w, l, l')
    ensures Next(c, State(l.shared, others + [l.thread]), a) == State(l'.shared, others + [l'.thread])
  {
    var choice :| MovesWith(c, w, l, l', choice);
    a := Advance(|others|, InputAt(w, l.thread.phase, choice));
    assert (others + [l.thread])[|others| := l'.thread] == others + [l'.thread];
  }

  lemma {:induction false} PathIsARun(c: Config, w: World, s: State, path: seq<Local>)
    requires Path(c, w, path) && RunsTo(c, s, State(path[0].shared, s.threads + [path[0].thread]))
    ensures var last := path[|path| - 1]; RunsTo(c, s, State(last.shared, s.threads + [last.thread]))
  {
    if |path| > 1 {
      var n := |path| - 1;
      assert Path(c, w, path[..n]) by {
        assert forall i :: 0 <= i < n ==> path[..n][i] == path[i];
      }
      PathIsARun(c, w, s, path[..n]);
      assert Move(c, w, path[n - 1], path[n - 1 + 1]);
      var a := MoveIsAStep(c, w, s.threads, path[n - 1], path[n]);
      RunExtends(c, s, State(path[n - 1].shared, s.threads + [path[n - 1].thread]), a);
    }
  }

  /**
   Whatever a request does alone, from any state of the machine, is a run of the
   machine: the request arrives, and then only its thread advances.
   */
  lemma AloneIsARun(c: Config, w: World, s: State, token: string, model: string, path: string, bodyTokens: nat,
                    sticky: Selection.Sticky, last: Local)
    requires LeadsTo(c, w, Local(s.shared, NewRequest(token, model, path, bodyTokens), sticky), last)
    ensures RunsTo(c, s, State(last.shared, s.threads + [last.thread]))
  {
    var th := NewRequest(token, model, path, bodyTokens);
    var arrive := Arrive(token, model, path, bodyTokens);
    assert Next(c, s, arrive) == State(s.shared, s.threads + [th]);
    assert Trace(c, [s, Next(c, s, arrive)], [arrive]);
    var locals :| Path(c, w, locals) && locals[0] == Local(s.shared, th, sticky) && locals[|locals| - 1] == last;
    PathIsARun(c, w, s, locals);
  }

  // ---- How a request ends ----

  /** The thread at the user limiter, or turned away before it. */
  function UpToLimiter(c: Config, w: World, s: Shared, th: Thread): Thread {
    var known := AfterAuthenticate(s, th, InputAt(w, Authenticate, None));
    if known.phase.Finished? then known
    else
      var ruled := AfterRules(c, s, known);
      if ruled.phase.Finished? then ruled
      else
        var priced := AfterEstimate(c, ruled, InputAt(w, Estimate, None));
        if !priced.phase.CheckBalance? then priced
        else Go(priced, if CanDeduct(s.db, priced.token, priced.phase.cost) then UserLimit else Finished(Rejected))
  }

  /** The request gets past the user limiter. */
  predicate Enters(w: World, s: Shared, asked: Thread) {
    && asked.phase.UserLimit? && asked.account.Some?
    && Admits(s.users, UserCall(asked, asked.account.value, w.userClock))
  }

  /** Some provider may serve it: the forced one, or else any. */
  ghost predicate HasRoute(w: World, s: Shared, asked: Thread) {
    if asked.forced != "" then Selection.Qualifies(s.snapshot, asked.forced, asked.model, w.selectClock)
    else exists name :: Selection.Qualifies(s.snapshot, name, asked.model, w.selectClock)
  }

  /** The pair it was given, and the fields the channel limiter's call is made of. */
  ghost predicate Routed(w: World, s: Shared, asked: Thread, th: Thread) {
    && Chosen(th) && th.model == asked.model && th.token == asked.token && th.estimate == asked.estimate
    && exists name, index: nat :: Offered(s.snapshot, asked, name, index, w.selectClock)
         && th.provider.value == s.snapshot.providers[name] && th.key.value == th.provider.value.keys[index]
  }

  /** Every gate lets the request through, as this world and the state it starts in have it. */
  ghost predicate Admitted(c: Config, w: World, s: Shared, th0: Thread, th: Thread) {
    var asked := UpToLimiter(c, w, s, th0);
    && Enters(w, s, asked) && HasRoute(w, s, asked) && Routed(w, s, asked, th)
    && Admits(s.channels, ChannelCall(th, th.provider.value, th.key.value, w.channelClock, w.scale))
  }

  /**
   Rejected exactly when a gate refuses, and otherwise failed or served as the upstream
   replies; and given a pair whenever the user limiter lets it through and some provider may serve it.
   */
  ghost predicate Decided(c: Config, w: World, s: Shared, th0: Thread, th: Thread) {
    var asked := UpToLimiter(c, w, s, th0);
    && th.phase == Finished(if !Admitted(c, w, s, th0, th) then Rejected else if w.reply.Failure? then Failed else Served)
    && (Enters(w, s, asked) && HasRoute(w, s, asked) ==> Routed(w, s, asked, th))
  }

  /** After the channel limiter: towards a failed or a served end. */
  predicate Failing(p: Phase) { Site(p).RecordFailure? || Site(p).CountFailure? || p == Finished(Failed) }

  predicate Serving(p: Phase) {
    var site := Site(p);
    site.RecordSuccess? || site.Settle? || site.Debit? || site.AddUsage? || site.CountSuccess? || site.CountCharge? || p == Finished(Served)
  }

  /** The thread after authentication, at the rules. */
  predicate AtRules(w: World, s: Shared, th0: Thread, th: Thread) {
    th.phase.RuleLoop? && th == AfterAuthenticate(s, th0, InputAt(w, Authenticate, None))
  }

  predicate AtEstimate(c: Config, w: World, s: Shared, th0: Thread, th: Thread) {
    var known := AfterAuthenticate(s, th0, InputAt(w, Authenticate, None));
    AtRules(w, s, th0, known) && th.phase.Estimate? && th == AfterRules(c, s, known)
  }

  predicate AtBalance(c: Config, w: World, s: Shared, th0: Thread, th: Thread) {
    var ruled := AfterRules(c, s, AfterAuthenticate(s, th0, InputAt(w, Authenticate, None)));
    AtEstimate(c, w, s, th0, ruled) && th.phase.CheckBalance? && th == AfterEstimate(c, ruled, InputAt(w, Estimate, None))
  }

  /** Past the channel limiter: let through, and on the way to the end the upstream's reply decides. */
  ghost predicate Beyond(c: Config, w: World, s: Shared, th0: Thread, th: Thread) {
    && ReturnsFromReload(th.phase) && Admitted(c, w, s, th0, th)
    && (if w.reply.Failure? then Failing(th.phase) else Serving(th.phase))
  }

  /** Where a request alone can be up to the channel limiter, and what has been decided by then. */
  ghost predicate Before(c: Config, w: World, s: Shared, th0: Thread, l: Local) {
    var th := l.thread;
    var asked := UpToLimiter(c, w, s, th0);
    match th.phase
    case Authenticate => l.shared == s && th == th0
    case RuleLoop => l.shared == s && AtRules(w, s, th0, th)
    case Estimate => l.shared == s && AtEstimate(c, w, s, th0, th)
    case CheckBalance(_) => l.shared == s && AtBalance(c, w, s, th0, th)
    case UserLimit => l.shared == s && th == asked && th.account.Some?
    case Choose => l.shared.snapshot == s.snapshot && l.shared.channels == s.channels && Enters(w, s, asked) && th == Go(asked, Choose)
    case ChannelLimit =>
      l.shared.channels == s.channels && Enters(w, s, asked) && HasRoute(w, s, asked) && Routed(w, s, asked, th)
    case Forward => Admitted(c, w, s, th0, th)
    case Finished(_) => Decided(c, w, s, th0, th)
    case _ => false
  }

  ghost predicate Along(c: Config, w: World, s: Shared, th0: Thread, l: Local) {
    Beyond(c, w, s, th0, l.thread) || Before(c, w, s, th0, l)
  }

  /** A request that has just arrived. */
  predicate Arrived(th: Thread) { th.phase.Authenticate? && !Chosen(th) }

  /** A step other than the selection. */
  predicate PlainMove(c: Config, w: World, l: Local, l': Local) {
    var input := InputAt(w, l.thread.phase, None);
    l'.shared == NextShared(c, l.shared, l.thread, input) && l'.thread == NextThread(c, l.shared, l.thread, input)
  }

  lemma MoveIsPlain(c: Config, w: World, l: Local, l': Local)
    requires Move(c, w, l, l') && !l.thread.phase.Choose?
    ensures PlainMove(c, w, l, l')
  {
  }

  /** Nothing before the user limiter gives a thread its key. */
  lemma UpToLimiterUnrouted(c: Config, w: World, s: Shared, th0: Thread)
    requires Arrived(th0)
    ensures !Chosen(UpToLimiter(c, w, s, th0))
  {
    var known := AfterAuthenticate(s, th0, InputAt(w, Authenticate, None));
    assert !Chosen(known);
    assert !Chosen(AfterRules(c, s, known));
  }

  lemma KeyAlong(c: Config, w: World, s: Shared, th0: Thread, l: Local, l': Local)
    requires Before(c, w, s, th0, l) && PlainMove(c, w, l, l') && Arrived(th0) && l.thread.phase.Authenticate?
    ensures Before(c, w, s, th0, l')
  {
    ReadsLeaveShared(c, l.shared, l.thread, InputAt(w, Authenticate, None));
  }

  lemma RulesAlong(c: Config, w: World, s: Shared, th0: Thread, l: Local, l': Local)
    requires Before(c, w, s, th0, l) && PlainMove(c, w, l, l') && Arrived(th0) && l.thread.phase.RuleLoop?
    ensures Before(c, w, s, th0, l')
  {
    ReadsLeaveShared(c, l.shared, l.thread, InputAt(w, RuleLoop, None));
    assert l'.thread == AfterRules(c, s, l.thread);
  }

  lemma EstimateAlong(c: Config, w: World, s: Shared, th0: Thread, l: Local, l': Local)
    requires Before(c, w, s, th0, l) && PlainMove(c, w, l, l') && Arrived(th0) && l.thread.phase.Estimate?
    ensures Before(c, w, s, th0, l')
  {
    ReadsLeaveShared(c, l.shared, l.thread, InputAt(w, Estimate, None));
    assert l'.thread == AfterEstimate(c, l.thread, InputAt(w, Estimate, None));
    assert l'.thread.phase.UserLimit? ==> l'.thread == UpToLimiter(c, w, s, th0);
  }

  lemma BalanceAlong(c: Config, w: World, s: Shared, th0: Thread, l: Local, l': Local)
    requires Before(c, w, s, th0, l) && PlainMove(c, w, l, l') && Arrived(th0) && l.thread.phase.CheckBalance?
    ensures Before(c, w, s, th0, l')
  {
    ReadsLeaveShared(c, l.shared, l.thread, InputAt(w, l.thread.phase, None));
    assert l'.thread == UpToLimiter(c, w, s, th0);
  }

  lemma LimiterAlong(c: Config, w: World, s: Shared, th0: Thread, l: Local, l': Local)
    requires Before(c, w, s, th0, l) && PlainMove(c, w, l, l') && Arrived(th0)
    requires l.thread.phase.UserLimit? || l.thread.phase.ChannelLimit?
    ensures Before(c, w, s, th0, l')
  {
  }

  lemma ChosenIsRouted(w: World, s: Shared, asked: Thread, l: Local, outcome: Selection.Outcome, choice: Option<(string, nat)>,
                       sticky': Selection.Sticky)
    requires l.shared.snapshot == s.snapshot && l.thread == Go(asked, Choose) && !Chosen(asked)
    requires Selection.Selects(l.shared.snapshot, l.sticky, SelectionRequest(w, l.thread), w.rand, w.nanos, outcome, sticky')
    requires Chose(l.shared.snapshot, l.thread, w.selectClock, outcome, choice)
    ensures var after := AfterChoose(l.shared, l.thread, InputAt(w, Choose, choice));
            if HasRoute(w, s, asked) then after.phase.ChannelLimit? && Routed(w, s, asked, after)
            else after == Go(l.thread, Finished(Rejected)) && !Chosen(after)
  {
    Selection.SelectionSoundAndComplete(l.shared.snapshot, l.sticky, SelectionRequest(w, l.thread), w.rand, w.nanos, outcome, sticky');
    if choice.Some? {
      var (name, index) := choice.value;
      assert Offered(s.snapshot, asked, name, index, w.selectClock);
    }
  }

  lemma ChoiceAlong(c: Config, w: World, s: Shared, th0: Thread, l: Local, l': Local)
    requires Before(c, w, s, th0, l) && Move(c, w, l, l') && Arrived(th0) && l.thread.phase.Choose?
    ensures Before(c, w, s, th0, l')
  {
    var choice :| MovesWith(c, w, l, l', choice);
    var outcome :|
      && Selection.Selects(l.shared.snapshot, l.sticky, SelectionRequest(w, l.thread), w.rand, w.nanos, outcome, l'.sticky)
      && Chose(l.shared.snapshot, l.thread, w.selectClock, outcome, choice);
    UpToLimiterUnrouted(c, w, s, th0);
    ReadsLeaveShared(c, l.shared, l.thread, InputAt(w, Choose, choice));
    ChosenIsRouted(w, s, UpToLimiter(c, w, s, th0), l, outcome, choice, l'.sticky);
  }

  /** What the gates asked about does not change behind them. */
  predicate SameRoute(th: Thread, after: Thread) {
    && after.key == th.key && after.provider == th.provider
    && after.model == th.model && after.token == th.token && after.estimate == th.estimate
  }

  lemma StillAdmitted(c: Config, w: World, s: Shared, th0: Thread, th: Thread, after: Thread)
    requires SameRoute(th, after)
    ensures Admitted(c, w, s, th0, th) <==> Admitted(c, w, s, th0, after)
  {
  }

  lemma ReplyStep(c: Config, s: Shared, th: Thread, input: Input)
    requires th.phase.Forward?
    ensures var after := NextThread(c, s, th, input);
            SameRoute(th, after) && if input.reply.Failure? then after.phase.RecordFailure? else after.phase.RecordSuccess?
  {
  }

  lemma LateStep(c: Config, s: Shared, th: Thread, input: Input)
    requires ReturnsFromReload(th.phase) && (Failing(th.phase) || Serving(th.phase)) && !th.phase.Finished?
    ensures var after := NextThread(c, s, th, input);
      && SameRoute(th, after) && ReturnsFromReload(after.phase)
      && (Failing(th.phase) ==> Failing(after.phase)) && (Serving(th.phase) ==> Serving(after.phase))
  {
    match th.phase
    case Reload(tablesRead, next) => assert NextThread(c, s, th, input) == AfterReload(s, th, tablesRead, next);
    case Settle => assert NextThread(c, s, th, input) == AfterSettle(c, th, input);
    case _ =>
  }

  lemma ReplyAlong(c: Config, w: World, s: Shared, th0: Thread, l: Local, l': Local)
    requires Before(c, w, s, th0, l) && PlainMove(c, w, l, l') && l.thread.phase.Forward?
    ensures Beyond(c, w, s, th0, l'.thread)
  {
    ReplyStep(c, l.shared, l.thread, InputAt(w, Forward, None));
    StillAdmitted(c, w, s, th0, l.thread, l'.thread);
  }

  lemma LateAlong(c: Config, w: World, s: Shared, th0: Thread, l: Local, l': Local)
    requires Beyond(c, w, s, th0, l.thread) && PlainMove(c, w, l, l') && !l.thread.phase.Finished?
    ensures Beyond(c, w, s, th0, l'.thread)
  {
    LateStep(c, l.shared, l.thread, InputAt(w, l.thread.phase, None));
    StillAdmitted(c, w, s, th0, l.thread, l'.thread);
  }

  lemma MoveKeepsAlong(c: Config, w: World, s: Shared, th0: Thread, l: Local, l': Local)
    requires Along(c, w, s, th0, l) && Move(c, w, l, l') && Arrived(th0)
    ensures Along(c, w, s, th0, l')
  {
    var p := l.thread.phase;
    if p.Choose? {
      ChoiceAlong(c, w, s, th0, l, l');
    } else {
      MoveIsPlain(c, w, l, l');
      if p.Finished? {
        assert l'.shared == l.shared && l'.thread == l.thread;
      } else if Beyond(c, w, s, th0, l.thread) {
        LateAlong(c, w, s, th0, l, l');
      } else {
        GateAlong(c, w, s, th0, l, l');
      }
    }
  }

  lemma GateAlong(c: Config, w: World, s: Shared, th0: Thread, l: Local, l': Local)
    requires Before(c, w, s, th0, l) && PlainMove(c, w, l, l') && Arrived(th0)
    requires !l.thread.phase.Choose? && !l.thread.phase.Finished?
    ensures Along(c, w, s, th0, l')
  {
    var p := l.thread.phase;
    if p.Authenticate? {
      KeyAlong(c, w, s, th0, l, l');
    } else if p.RuleLoop? {
      RulesAlong(c, w, s, th0, l, l');
    } else if p.Estimate? {
      EstimateAlong(c, w, s, th0, l, l');
    } else if p.CheckBalance? {
      BalanceAlong(c, w, s, th0, l, l');
    } else if p.Forward? {
      ReplyAlong(c, w, s, th0, l, l');
    } else {
      LimiterAlong(c, w, s, th0, l, l');
    }
  }

  lemma StartsAlong(c: Config, w: World, l: Local)
    requires Arrived(l.thread)
    ensures Along(c, w, l.shared, l.thread, l)
  {
    assert Before(c, w, l.shared, l.thread, l);
  }

  lemma BeyondDecides(c: Config, w: World, s: Shared, th0: Thread, th: Thread)
    requires Beyond(c, w, s, th0, th) && th.phase.Finished?
    ensures Decided(c, w, s, th0, th)
  {
  }

  lemma EndDecides(c: Config, w: World, s: Shared, th0: Thread, l: Local)
    requires Along(c, w, s, th0, l) && l.thread.phase.Finished?
    ensures Decided(c, w, s, th0, l.thread)
  {
    if Beyond(c, w, s, th0, l.thread) {
      BeyondDecides(c, w, s, th0, l.thread);
    }
  }

  lemma {:induction false} PathStaysAlong(c: Config, w: World, th0: Thread, path: seq<Local>)
    requires Path(c, w, path) && path[0].thread == th0 && Arrived(th0)
    ensures Along(c, w, path[0].shared, th0, path[|path| - 1])
  {
    if |path| == 1 {
      StartsAlong(c, w, path[0]);
    } else {
      var n := |path| - 1;
      assert Path(c, w, path[..n]) by {
        assert forall i :: 0 <= i < n ==> path[..n][i] == path[i];
      }
      PathStaysAlong(c, w, th0, path[..n]);
      assert Move(c, w, path[n - 1], path[n - 1 + 1]);
      MoveKeepsAlong(c, w, path[0].shared, th0, path[n - 1], path[n]);
    }
  }

  /**
   The world decides how a request ends: rejected exactly when a gate refuses it as
   the state it started in stands, and otherwise failed or served as the upstream replies.
   */
  lemma WorldDecides(c: Config, w: World, from: Local, to: Local)
    requires LeadsTo(c, w, from, to) && Arrived(from.thread) && to.thread.phase.Finished?
    ensures Decided(c, w, from.shared, from.thread, to.thread)
  {
    var path :| Path(c, w, path) && path[0] == from && path[|path| - 1] == to;
    PathStaysAlong(c, w, from.thread, path);
    EndDecides(c, w, from.shared, from.thread, to);
  }
}
