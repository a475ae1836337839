/**
 The gateway as a state machine: any number of requests in flight, each moving
 through handleProxy one store, limiter or snapshot call at a time, beside
 reloads and the administrator's writes.
 */
module Gateway {
  import opened Base
  import opened Billing
  import opened Clock
  import opened Conditions
  import opened Health
  import opened Limiter
  import opened Prices
  import opened Rules
  import opened SnapshotView
  import opened Sums
  import opened Tables
  import Selection

  // ---- State ----

  datatype Config = Config(policy: Policy, billing: bool, defaultPrice: int, engine: Engine, decode: Decoder)

  datatype End = Rejected | Failed | Served | Reloaded

  /** Where a thread stands: the next call it makes. */
  datatype Phase =
    | Authenticate
    | RuleLoop
    | Estimate
    | CheckBalance(cost: int)
    | UserLimit
    | Choose
    | ChannelLimit
    | Forward
    | RecordFailure(status: string)
    | CountFailure
    | RecordSuccess
    | Settle
    | Debit
    | AddUsage
    | CountSuccess
    | CountCharge
    | Reload(tablesRead: nat, next: Phase)
    | Finished(end: End)

  /** A request, or a reload of its own, with its local variables. */
  datatype Thread = Thread(
    phase: Phase,
    token: string, model: string, path: string, bodyTokens: nat,
    account: Option<GatewayKey>,
    multiplier: real, forced: string,
    estimate: int, checked: int,
    provider: Option<ProviderState>, key: Option<ProviderKeyState>,
    total: int, charge: int, debited: bool,
    read: Listings)

  /** The incStat counters. */
  datatype Stats = Stats(proxyOk: int, proxyError: int, billingCharged: int)

  /**
   What the threads share.  `admitted` is a history variable: the number of times
   the channel limiter has let a request through.
   */
  datatype Shared = Shared(
    db: Database, snapshot: Snapshot, stats: Stats,
    users: Windows, channels: Windows, admitted: int)

  datatype State = State(shared: Shared, threads: seq<Thread>)

  const NO_LISTINGS := Listings(map[], [], map[], [], [])

  function NewRequest(token: string, model: string, path: string, bodyTokens: nat): Thread {
    Thread(Authenticate, token, model, path, bodyTokens, None, 1.0, "", 0, 0, None, None, 0, 0, false, NO_LISTINGS)
  }

  function NewReload(): Thread {
    NewRequest("", "", "", 0).(phase := Reload(0, Finished(Reloaded)))
  }

  // ---- Actions ----

  datatype Reply = Failure(status: string) | Usage(total: int)

  /** Everything a step takes from outside the modelled state. */
  datatype Input = Input(
    now: Time,
    tenantEnabled: bool,
    priceListing: seq<PriceRule>,
    choice: Option<(string, nat)>,
    scale: real,
    reply: Reply)

  datatype Action =
    | Arrive(token: string, model: string, path: string, bodyTokens: nat)
    | StartReload
    | Advance(tid: nat, input: Input)
    | AdminTopup(key: string, amount: int, reason: string, ref: string)
    | PutAPIKey(row: APIKey)
    | DropAPIKey(keyValue: string)
    | PutProvider(provider: Provider)
    | DropProvider(name: string)
    | PutProviderKey(pk: ProviderKey)
    | DropProviderKey(id: int)
    | PutRules(rules: seq<Rule>)
    | PutSchedules(schedules: seq<GroupSchedule>)
    | PutPrices(prices: seq<PriceRule>)

  // ---- The steps of a request ----

  /** int(float64(body tokens) * multiplier), at least one. */
  function EstimatedTokens(bodyTokens: nat, multiplier: real): (e: int)
    ensures e >= 1
  {
    var e := (bodyTokens as real * multiplier).Floor;
    if e <= 0 then 1 else e
  }

  /** int(float64(limit) * scale), at least zero. */
  function ScaledLimit(limit: int, scale: real): int {
    var x := (limit as real * scale).Floor;
    if x < 0 then 0 else x
  }

  function UserCall(th: Thread, account: GatewayKey, now: Time): Call {
    Call(now, "user:" + account.key, 1, th.estimate, account.maxRPM, account.maxTPM)
  }

  function ChannelCall(th: Thread, p: ProviderState, k: ProviderKeyState, now: Time, scale: real): Call {
    Call(now, "provider:" + p.name + ":" + k.alias, 1, th.estimate, ScaledLimit(p.maxRPM, scale), ScaledLimit(p.maxTPM, scale))
  }

  /** The provider and live key a selection may return; Selection shows every selection returns one of these. */
  predicate Offered(snap: Snapshot, th: Thread, name: string, index: nat, now: Time) {
    && (th.forced != "" ==> name == th.forced)
    && Selection.Qualifies(snap, name, th.model, now)
    && index < |snap.providers[name].keys|
    && Selection.LiveKey(snap.providers[name].keys[index], now)
  }

  function Go(th: Thread, phase: Phase): Thread { th.(phase := phase) }

  /** authenticateUser and the allowed-models check. */
  function AfterAuthenticate(s: Shared, th: Thread, input: Input): Thread {
    if th.token !in s.snapshot.keys || !s.snapshot.keys[th.token].enabled || !input.tenantEnabled then Go(th, Finished(Rejected))
    else
      var account := s.snapshot.keys[th.token];
      if !Selection.Supports(account.allowedModels, th.model) then Go(th, Finished(Rejected))
      else Go(th, RuleLoop).(account := Some(account), multiplier := account.rateMultiplier)
  }

  /** The provider applyRules forces: the last firing rule that names one. */
  function ForcedBy(rules: seq<RuleState>, ctx: Ctx, engine: Engine): string {
    if rules == [] then ""
    else
      var last := rules[|rules| - 1];
      if Fires(last, ctx, engine) && last.action.forceProvider != "" then last.action.forceProvider
      else ForcedBy(rules[..|rules| - 1], ctx, engine)
  }

  function AfterRules(c: Config, s: Shared, th: Thread): Thread {
    var ctx := Ctx(th.token, th.model, th.path);
    if Denied(s.snapshot.rules, ctx, c.engine) then Go(th, Finished(Rejected))
    else
      var multiplier := th.multiplier * Product(s.snapshot.rules, Factor(ctx, c.engine));
      Go(th, Estimate).(forced := ForcedBy(s.snapshot.rules, ctx, c.engine),
                        multiplier := multiplier,
                        estimate := EstimatedTokens(th.bodyTokens, multiplier))
  }

  function AfterEstimate(c: Config, th: Thread, input: Input): Thread {
    if !c.billing then Go(th, UserLimit)
    else
      var cost := Charge(th.estimate, FirstPrice(input.priceListing, th.model, c.defaultPrice));
      if cost > 0 then Go(th, CheckBalance(cost)).(checked := cost) else Go(th, UserLimit).(checked := cost)
  }

  function AfterUserLimit(s: Shared, th: Thread, input: Input): Thread {
    if th.account.None? then th
    else Go(th, if Admits(s.users, UserCall(th, th.account.value, input.now)) then Choose else Finished(Rejected))
  }

  function AfterChoose(s: Shared, th: Thread, input: Input): Thread {
    match input.choice
    case None => Go(th, Finished(Rejected))
    case Some((name, index)) =>
      if Offered(s.snapshot, th, name, index, input.now) then
        Go(th, ChannelLimit).(provider := Some(s.snapshot.providers[name]), key := Some(s.snapshot.providers[name].keys[index]))
      else th
  }

  /** A thread past the selection has both; the rest of the steps need them. */
  predicate Chosen(th: Thread) { th.provider.Some? && th.key.Some? }

  predicate ChannelAdmits(s: Shared, th: Thread, input: Input)
    requires Chosen(th)
  {
    Admits(s.channels, ChannelCall(th, th.provider.value, th.key.value, input.now, input.scale))
  }

  function AfterForward(th: Thread, reply: Reply): Thread {
    match reply
    case Failure(status) => Go(th, RecordFailure(status))
    case Usage(total) => Go(th, RecordSuccess).(total := total)
  }

  function BilledTokens(th: Thread): int { Max(th.estimate, th.total) }

  function AfterSettle(c: Config, th: Thread, input: Input): Thread {
    if !c.billing then Go(th, AddUsage)
    else
      var charge := Charge(BilledTokens(th), FirstPrice(input.priceListing, th.model, c.defaultPrice));
      Go(th, if charge > 0 then Debit else AddUsage).(charge := charge)
  }

  /** The next of the five table reads of a reload, or the return from its publication. */
  function AfterReload(s: Shared, th: Thread, tablesRead: nat, next: Phase): Thread {
    var now := ListingsOf(s.db);
    var more := Go(th, Reload(tablesRead + 1, next));
    if tablesRead == 0 then more.(read := th.read.(providers := now.providers))
    else if tablesRead == 1 then more.(read := th.read.(providerKeys := now.providerKeys))
    else if tablesRead == 2 then more.(read := th.read.(apiKeys := now.apiKeys))
    else if tablesRead == 3 then more.(read := th.read.(rules := now.rules))
    else if tablesRead == 4 then more.(read := th.read.(schedules := now.schedules))
    else Go(th, next)
  }

  /** What a step does to its own thread. */
  function NextThread(c: Config, s: Shared, th: Thread, input: Input): Thread {
    match th.phase
    case Authenticate => AfterAuthenticate(s, th, input)
    case RuleLoop => AfterRules(c, s, th)
    case Estimate => AfterEstimate(c, th, input)
    case CheckBalance(cost) => Go(th, if CanDeduct(s.db, th.token, cost) then UserLimit else Finished(Rejected))
    case UserLimit => AfterUserLimit(s, th, input)
    case Choose => AfterChoose(s, th, input)
    case ChannelLimit => if Chosen(th) then Go(th, if ChannelAdmits(s, th, input) then Forward else Finished(Rejected)) else th
    case Forward => AfterForward(th, input.reply)
    case RecordFailure(_) => if Chosen(th) then Go(th, Reload(0, CountFailure)) else th
    case CountFailure => Go(th, Finished(Failed))
    case RecordSuccess => if Chosen(th) then Go(th, Reload(0, Settle)) else th
    case Settle => AfterSettle(c, th, input)
    case Debit => Go(th, Reload(0, AddUsage)).(debited := CanDeduct(s.db, th.token, th.charge))
    case AddUsage => if Chosen(th) then Go(th, CountSuccess) else th
    case CountSuccess => Go(th, if th.charge > 0 then CountCharge else Finished(Served))
    case CountCharge => Go(th, Finished(Served))
    case Reload(tablesRead, next) => AfterReload(s, th, tablesRead, next)
    case Finished(_) => th
  }

  /** UpdateProviderKeyHealth with what the outcome writes, from the thread's own copy of the key. */
  function RecordHealth(db: Database, th: Thread, w: Written, status: string): Database
    requires Chosen(th)
  {
    db.(providerKeys := UpdateHealth(db.providerKeys, th.key.value.id, w, status))
  }

  function UsageRow(th: Thread): UsageRecord
    requires Chosen(th)
  {
    UsageRecord(th.token, th.provider.value.name, th.key.value.alias, th.model, BilledTokens(th))
  }

  /** What a step does to the database. */
  function NextDatabase(c: Config, db: Database, th: Thread, now: Time): Database {
    match th.phase
    case RecordFailure(status) =>
      if Chosen(th) then
        RecordHealth(db, th, OnFailure(c.policy, th.key.value.consecutiveErrs, th.provider.value.recoverInterval, now), status)
      else db
    case RecordSuccess => if Chosen(th) then RecordHealth(db, th, OnSuccess(), "ok") else db
    case Debit => Deduct(db, th.token, th.charge, "usage", th.model)
    case AddUsage => if Chosen(th) then db.(usage := db.usage + [UsageRow(th)]) else db
    case _ => db
  }

  function NextStats(stats: Stats, th: Thread): Stats {
    match th.phase
    case CountFailure => stats.(proxyError := stats.proxyError + 1)
    case CountSuccess => stats.(proxyOk := stats.proxyOk + 1)
    case CountCharge => stats.(billingCharged := stats.billingCharged + 1)
    case _ => stats
  }

  /** What a step does to everything shared. */
  function NextShared(c: Config, s: Shared, th: Thread, input: Input): Shared {
    var channelCall := th.phase.ChannelLimit? && Chosen(th);
    Shared(
      NextDatabase(c, s.db, th, input.now),
      if th.phase.Reload? && th.phase.tablesRead >= 5 then View(th.read, c.decode) else s.snapshot,
      NextStats(s.stats, th),
      if th.phase.UserLimit? && th.account.Some? then Limiter.After(s.users, UserCall(th, th.account.value, input.now)) else s.users,
      if channelCall then Limiter.After(s.channels, ChannelCall(th, th.provider.value, th.key.value, input.now, input.scale)) else s.channels,
      if channelCall && ChannelAdmits(s, th, input) then s.admitted + 1 else s.admitted)
  }

  /** A price query needs an answer the price table allows. */
  predicate CanStep(c: Config, s: Shared, th: Thread, input: Input) {
    (th.phase.Estimate? || th.phase.Settle?) && c.billing ==> Listing(input.priceListing, s.db.prices)
  }

  function Step(c: Config, s: State, tid: nat, input: Input): State
    requires tid < |s.threads|
  {
    var th := s.threads[tid];
    if !CanStep(c, s.shared, th, input) then s
    else State(NextShared(c, s.shared, th, input), s.threads[tid := NextThread(c, s.shared, th, input)])
  }

  // ---- The administrator's writes ----

  function IndexOfKey(rows: seq<ProviderKey>, id: int): int {
    if rows == [] then -1
    else if rows[|rows| - 1].id == id then |rows| - 1
    else IndexOfKey(rows[..|rows| - 1], id)
  }

  /** UpsertProviderKey: an edit leaves the health columns alone; a new key starts fresh. */
  function UpsertProviderKey(rows: seq<ProviderKey>, pk: ProviderKey): seq<ProviderKey> {
    var i := IndexOfKey(rows, pk.id);
    if 0 <= i < |rows| then
      rows[i := pk.(consecutiveErrs := rows[i].consecutiveErrs, cooldownUntil := rows[i].cooldownUntil, lastStatus := rows[i].lastStatus)]
    else rows + [pk.(consecutiveErrs := 0, cooldownUntil := 0, lastStatus := "")]
  }

  function Administer(db: Database, a: Action): Database {
    match a
    case AdminTopup(key, amount, reason, ref) => if amount <= 0 then db else Topup(db, key, amount, reason, ref)
    case PutAPIKey(row) => db.(apiKeys := db.apiKeys[row.keyValue := row])
    case DropAPIKey(keyValue) => db.(apiKeys := db.apiKeys - {keyValue})
    case PutProvider(provider) => db.(providers := db.providers[provider.name := provider])
    case DropProvider(name) =>
      db.(providers := db.providers - {name},
          providerKeys := Filter(db.providerKeys, (pk: ProviderKey) => pk.providerName != name))
    case PutProviderKey(pk) => db.(providerKeys := UpsertProviderKey(db.providerKeys, pk))
    case DropProviderKey(id) => db.(providerKeys := Filter(db.providerKeys, (pk: ProviderKey) => pk.id != id))
    case PutRules(rules) => db.(rules := rules)
    case PutSchedules(schedules) => db.(schedules := schedules)
    case PutPrices(prices) => db.(prices := prices)
    case _ => db
  }

  function Next(c: Config, s: State, a: Action): State {
    match a
    case Arrive(token, model, path, bodyTokens) => s.(threads := s.threads + [NewRequest(token, model, path, bodyTokens)])
    case StartReload => s.(threads := s.threads + [NewReload()])
    case Advance(tid, input) => if tid < |s.threads| then Step(c, s, tid, input) else s
    case _ => s.(shared := s.shared.(db := Administer(s.shared.db, a)))
  }

  // ---- Runs ----

  /** A run: the states before and after each action. */
  ghost predicate Trace(c: Config, states: seq<State>, actions: seq<Action>) {
    && |states| == |actions| + 1
    && forall i :: 0 <= i < |actions| ==> states[i + 1] == Next(c, states[i], actions[i])
  }

  /** A gateway that has just started: no threads, nothing counted, any database. */
  predicate Fresh(s: State) {
    s.threads == [] && s.shared.stats == Stats(0, 0, 0) && s.shared.admitted == 0
  }

  lemma TracePrefix(c: Config, states: seq<State>, actions: seq<Action>)
    requires Trace(c, states, actions) && actions != []
    ensures var n := |actions| - 1;
            Trace(c, states[..n + 1], actions[..n]) && states[n + 1] == Next(c, states[n], actions[n])
  {
  }

  // ---- What one step leaves alone ----

  /** A request reloads the snapshot on its way to one of three calls; a reload of its own just ends. */
  predicate ReturnsFromReload(p: Phase) {
    p.Reload? ==> p.next.CountFailure? || p.next.Settle? || p.next.AddUsage? || p.next == Finished(Reloaded)
  }

  /** The call a thread is at, or will be at once its reload is done. */
  function Site(p: Phase): Phase { if p.Reload? then p.next else p }

  /** The control flow of a request: which call can come after the thread's. */
  predicate Follows(th: Thread, p: Phase) {
    match th.phase
    case Authenticate => p.RuleLoop? || p == Finished(Rejected)
    case RuleLoop => p.Estimate? || p == Finished(Rejected)
    case Estimate => p.CheckBalance? || p.UserLimit?
    case CheckBalance(_) => p.UserLimit? || p == Finished(Rejected)
    case UserLimit => p.Choose? || p == Finished(Rejected)
    case Choose => p.ChannelLimit? || p == Finished(Rejected)
    case ChannelLimit => p.Forward? || p == Finished(Rejected)
    case Forward => p.RecordFailure? || p.RecordSuccess?
    case RecordFailure(_) => p == Reload(0, CountFailure)
    case CountFailure => p == Finished(Failed)
    case RecordSuccess => p == Reload(0, Settle)
    case Settle => p.Debit? || p.AddUsage?
    case Debit => p == Reload(0, AddUsage)
    case AddUsage => p.CountSuccess?
    case CountSuccess => p == if th.charge > 0 then CountCharge else Finished(Served)
    case CountCharge => p == Finished(Served)
    case Reload(tablesRead, next) => p == if tablesRead < 5 then Reload(tablesRead + 1, next) else next
    case Finished(_) => false
  }

  /** The calls a thread may stay at. */
  predicate MayWait(p: Phase) {
    p.UserLimit? || p.Choose? || p.ChannelLimit? || p.RecordFailure? || p.RecordSuccess? || p.AddUsage? || p.Finished?
  }

  /** A thread before and after a step: the call that follows, the request kept, each amount set in one place only. */
  predicate Moves(th: Thread, after: Thread) {
    && ((after == th && MayWait(th.phase)) || Follows(th, after.phase))
    && after.model == th.model && after.token == th.token
    && (after.estimate == th.estimate || th.phase.RuleLoop?)
    && (th.phase.RuleLoop? && after.phase.Estimate? ==> after.estimate >= 1)
    && (after.checked == th.checked || th.phase.Estimate?)
    && (after.total == th.total || th.phase.Forward?)
    && (after.charge == th.charge || th.phase.Settle?)
    && (th.phase.Settle? && after.phase.Debit? ==> after.charge > 0)
    && (after.debited == th.debited || th.phase.Debit?)
  }

  lemma RulesMove(c: Config, s: Shared, th: Thread)
    requires th.phase.RuleLoop?
    ensures Moves(th, AfterRules(c, s, th))
  {
  }

  lemma MoneyMoves(c: Config, th: Thread, input: Input)
    ensures th.phase.Estimate? ==> Moves(th, AfterEstimate(c, th, input))
    ensures th.phase.Settle? ==> Moves(th, AfterSettle(c, th, input))
  {
  }

  lemma ReloadMoves(s: Shared, th: Thread)
    requires th.phase.Reload?
    ensures Moves(th, AfterReload(s, th, th.phase.tablesRead, th.phase.next))
  {
  }

  lemma AdmissionMoves(s: Shared, th: Thread, input: Input)
    ensures th.phase.Authenticate? ==> Moves(th, AfterAuthenticate(s, th, input))
    ensures th.phase.UserLimit? ==> Moves(th, AfterUserLimit(s, th, input))
    ensures th.phase.Choose? ==> Moves(th, AfterChoose(s, th, input))
    ensures th.phase.Forward? ==> Moves(th, AfterForward(th, input.reply))
  {
  }

  lemma StepMoves(c: Config, s: Shared, th: Thread, input: Input)
    ensures Moves(th, NextThread(c, s, th, input))
  {
    if th.phase.RuleLoop? {
      RulesMove(c, s, th);
    } else if th.phase.Reload? {
      ReloadMoves(s, th);
    } else if th.phase.Estimate? || th.phase.Settle? {
      MoneyMoves(c, th, input);
    } else {
      AdmissionMoves(s, th, input);
    }
  }

  // ---- The machine's steps are the program's ----

  /** Every choice Selection can make is one the machine offers. */
  lemma SelectionIsOffered(s: Shared, th: Thread, sticky: Selection.Sticky, session: string, now: Time, rand: nat -> nat, nanos: nat,
                           outcome: Selection.Outcome, sticky': Selection.Sticky)
    requires Selection.Selects(s.snapshot, sticky, Selection.Request(th.model, th.forced, session, now), rand, nanos, outcome, sticky')
    requires outcome.Selected?
    ensures exists name, index: nat :: Offered(s.snapshot, th, name, index, now)
              && outcome.provider == s.snapshot.providers[name] && outcome.key == outcome.provider.keys[index]
  {
    var req := Selection.Request(th.model, th.forced, session, now);
    Selection.SelectionSoundAndComplete(s.snapshot, sticky, req, rand, nanos, outcome, sticky');
    var name :| Selection.Qualifies(s.snapshot, name, th.model, now) && outcome.provider == s.snapshot.providers[name]
                && (th.forced != "" ==> name == th.forced);
    var index :| 0 <= index < |outcome.provider.keys| && outcome.provider.keys[index] == outcome.key;
    assert Offered(s.snapshot, th, name, index, now);
  }

  /** The provider the rule loop returns is the one the machine forces. */
  lemma {:induction false} ForcedIsLastNamed(rules: seq<RuleState>, ctx: Ctx, engine: Engine, provider: string)
    requires Forces(rules, ctx, engine, provider)
    ensures ForcedBy(rules, ctx, engine) == provider
  {
    if rules != [] {
      var n := |rules| - 1;
      var before := rules[..n];
      if !(Fires(rules[n], ctx, engine) && rules[n].action.forceProvider != "") {
        if provider != "" {
          var i :| LastNamed(rules, ctx, engine, i) && rules[i].action.forceProvider == provider;
          assert LastNamed(before, ctx, engine, i);
        }
        assert Forces(before, ctx, engine, provider);
        ForcedIsLastNamed(before, ctx, engine, provider);
      } else if provider != "" {
        var i :| LastNamed(rules, ctx, engine, i) && rules[i].action.forceProvider == provider;
        assert i == n;
      }
    }
  }
}
