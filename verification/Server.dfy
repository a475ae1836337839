/**
 The server object: the methods behind handleProxy, over the store, the
 limiters, the sticky bindings, the snapshot and the counters.  Each is proved
 to do to the server what the state machine's step does to its shared state, and
 HandleProxy as a whole to be one run of those steps.
 */
module Server {
  import opened Base
  import opened Billing
  import opened Clock
  import opened Conditions
  import opened Gateway
  import opened Handler
  import opened Health
  import opened Limiter
  import opened Prices
  import opened Rules
  import opened SnapshotView
  import opened Tables
  import Selection
  import Store
  import Verdict

  class Server {
    const cfg: Config
    const store: Store.Store
    const userLimiter: MinuteLimiter
    const channelLimiter: MinuteLimiter
    const selector: Selection.Selector
    var snapshot: Snapshot
    var stats: map<string, int>
    ghost var admitted: int

    /** NewServer: nothing counted, and a first snapshot published. */
    constructor (cfg: Config, store: Store.Store)
      requires KeyedByName(ListingsOf(store.db))
      ensures Valid() && this.cfg == cfg && this.store == store
      ensures snapshot == SnapshotView.View(ListingsOf(store.db), cfg.decode) && stats == map[] && admitted == 0
    {
      this.cfg := cfg;
      this.store := store;
      var users := new MinuteLimiter();
      var channels := new MinuteLimiter();
      var sel := new Selection.Selector();
      userLimiter, channelLimiter, selector := users, channels, sel;
      snapshot := Snapshot(map[], map[], [], []);
      stats := map[];
      admitted := 0;
      new;
      ReloadSnapshot();
    }

    ghost function Repr(): set<object>
      reads this, userLimiter, channelLimiter
    {
      {this, store, userLimiter, channelLimiter, selector} + userLimiter.buckets.Values + channelLimiter.buckets.Values
    }

    ghost predicate Valid()
      reads userLimiter, channelLimiter, userLimiter.buckets.Values, channelLimiter.buckets.Values
    {
      && userLimiter.Valid() && channelLimiter.Valid()
      && userLimiter != channelLimiter
      && userLimiter.buckets.Values !! channelLimiter.buckets.Values
    }

    function Stat(name: string): int
      reads this
    {
      if name in stats then stats[name] else 0
    }

    /** The server as the state machine's shared state. */
    ghost function View(): Shared
      reads this, store, userLimiter, channelLimiter
    {
      Shared(store.db, snapshot, Stats(Stat("proxy_ok"), Stat("proxy_error"), Stat("billing_charged")),
             userLimiter.windows, channelLimiter.windows, admitted)
    }

    method IncStat(name: string)
      modifies this
      ensures Stat(name) == old(Stat(name)) + 1
      ensures forall other :: other != name ==> Stat(other) == old(Stat(other))
      ensures snapshot == old(snapshot) && admitted == old(admitted)
    {
      stats := stats[name := (if name in stats then stats[name] else 0) + 1];
    }

    /** With no write in between, a reload publishes the view of the store. */
    method ReloadSnapshot()
      requires KeyedByName(ListingsOf(store.db))
      modifies this
      ensures snapshot == SnapshotView.View(ListingsOf(store.db), cfg.decode)
      ensures stats == old(stats) && admitted == old(admitted)
    {
      var db := store.db;
      snapshot := BuildSnapshot(ListingsOf(db), cfg.decode);
    }

    method MarkProviderKeySuccess(key: ProviderKeyState)
      requires KeyedByName(ListingsOf(store.db)) && store as object != this
      modifies this, store
      ensures store.db == old(store.db).(providerKeys := UpdateHealth(old(store.db).providerKeys, key.id, OnSuccess(), "ok"))
      ensures snapshot == SnapshotView.View(ListingsOf(store.db), cfg.decode)
      ensures stats == old(stats) && admitted == old(admitted)
    {
      store.UpdateProviderKeyHealth(key.id, 0, 0, "ok");
      ReloadSnapshot();
    }

    method MarkProviderKeyFailure(provider: ProviderState, key: ProviderKeyState, status: string, now: Time)
      requires KeyedByName(ListingsOf(store.db)) && store as object != this
      modifies this, store
      ensures store.db == old(store.db).(providerKeys := UpdateHealth(old(store.db).providerKeys, key.id,
                 OnFailure(cfg.policy, key.consecutiveErrs, provider.recoverInterval, now), status))
      ensures snapshot == SnapshotView.View(ListingsOf(store.db), cfg.decode)
      ensures stats == old(stats) && admitted == old(admitted)
    {
      var nextErrs := key.consecutiveErrs + 1;
      var cooldownUntil := 0;
      if nextErrs >= cfg.policy.failThreshold {
        var rest := cfg.policy.cooldownSec * SECOND;
        if provider.recoverInterval > rest {
          rest := provider.recoverInterval;
        }
        cooldownUntil := UnixSeconds(now + rest);
        nextErrs := 0;
      }
      store.UpdateProviderKeyHealth(key.id, nextErrs, cooldownUntil, status);
      ReloadSnapshot();
    }

    // ---- The calls of handleProxy, in order ----

    method Authenticate(th: Thread, tenantEnabled: bool) returns (next: Thread)
      ensures forall input: Input :: input.tenantEnabled == tenantEnabled ==> next == AfterAuthenticate(View(), th, input)
    {
      if th.token !in snapshot.keys || !snapshot.keys[th.token].enabled {
        return th.(phase := Finished(Rejected));
      }
      var account := snapshot.keys[th.token];
      if !tenantEnabled {
        return th.(phase := Finished(Rejected));
      }
      var supported := Selection.SupportsModel(account.allowedModels, th.model);
      if |account.allowedModels| > 0 && !supported {
        return th.(phase := Finished(Rejected));
      }
      return th.(phase := RuleLoop, account := Some(account), multiplier := account.rateMultiplier);
    }

    method EstimateTokens(bodyTokens: nat, multiplier: real) returns (estimate: int)
      ensures estimate == EstimatedTokens(bodyTokens, multiplier)
    {
      estimate := (bodyTokens as real * multiplier).Floor;
      if estimate <= 0 {
        estimate := 1;
      }
    }

    method RunRules(th: Thread) returns (next: Thread)
      ensures next == AfterRules(cfg, View(), th)
    {
      var ctx := Ctx(th.token, th.model, th.path);
      var forced, denied, multiplier := ApplyRules(snapshot.rules, ctx, th.multiplier, cfg.engine);
      if denied {
        return th.(phase := Finished(Rejected));
      }
      ForcedIsLastNamed(snapshot.rules, ctx, cfg.engine, forced);
      var estimate := EstimateTokens(th.bodyTokens, multiplier);
      return th.(phase := Estimate, forced := forced, multiplier := multiplier, estimate := estimate);
    }

    method EstimateCost(th: Thread, prices: seq<PriceRule>) returns (next: Thread)
      ensures forall input: Input :: input.priceListing == prices ==> next == AfterEstimate(cfg, th, input)
    {
      if !cfg.billing {
        return th.(phase := UserLimit);
      }
      var price := ResolveModelPriceMicros(prices, th.model, cfg.defaultPrice);
      var cost := Charge(th.estimate, price);
      return th.(phase := if cost > 0 then CheckBalance(cost) else UserLimit, checked := cost);
    }

    method CheckLiveBalance(th: Thread, cost: int) returns (next: Thread)
      ensures next == Go(th, if CanDeduct(store.db, th.token, cost) then UserLimit else Finished(Rejected))
    {
      var live := store.FindAPIKeyByValue(th.token);
      if live.None? || live.value.balanceMicros < cost {
        return th.(phase := Finished(Rejected));
      }
      return th.(phase := UserLimit);
    }

    method LimitUser(th: Thread, now: Time) returns (next: Thread)
      requires Valid() && th.account.Some?
      modifies userLimiter, userLimiter.buckets.Values
      ensures Valid() && fresh(Repr() - old(Repr()))
      ensures var call := UserCall(th, th.account.value, now);
        && next == Go(th, if Admits(old(View()).users, call) then Choose else Finished(Rejected))
        && View() == old(View()).(users := Limiter.After(old(View()).users, call))
    {
      var account := th.account.value;
      var ok := userLimiter.Allow(now, "user:" + account.key, 1, th.estimate, account.maxRPM, account.maxTPM);
      next := th.(phase := if ok then Choose else Finished(Rejected));
    }

    method ChooseProvider(th: Thread, w: World) returns (next: Thread, ghost choice: Option<(string, nat)>)
      requires Valid() && Selection.Intn(w.rand)
      modifies selector
      ensures View() == old(View())
      ensures Selecting(w, Local(View(), th, old(selector.stickySession)), choice, selector.stickySession)
      ensures next == AfterChoose(View(), th, InputAt(w, Choose, choice))
      ensures next.phase == Finished(Rejected) || (next.phase == ChannelLimit && Chosen(next))
    {
      ghost var before := selector.stickySession;
      var outcome := selector.SelectProviderAndKey(snapshot, SelectionRequest(w, th), w.rand, w.nanos);
      choice := ChoiceOf(w, th, before, outcome, selector.stickySession);
      if outcome.Unavailable? {
        next := th.(phase := Finished(Rejected));
      } else {
        next := th.(phase := ChannelLimit, provider := Some(outcome.provider), key := Some(outcome.key));
      }
    }

    /** Where in the snapshot the selected pair is found. */
    lemma ChoiceOf(w: World, th: Thread, before: Selection.Sticky, outcome: Selection.Outcome, after: Selection.Sticky)
      returns (choice: Option<(string, nat)>)
      requires Selection.Selects(snapshot, before, SelectionRequest(w, th), w.rand, w.nanos, outcome, after)
      ensures Chose(snapshot, th, w.selectClock, outcome, choice)
    {
      if outcome.Unavailable? {
        choice := None;
      } else {
        SelectionIsOffered(View(), th, before, w.session, w.selectClock, w.rand, w.nanos, outcome, after);
        var name, index: nat :| Offered(snapshot, th, name, index, w.selectClock)
          && outcome.provider == snapshot.providers[name] && outcome.key == outcome.provider.keys[index];
        choice := Some((name, index));
      }
    }

    method ScaleLimit(limit: int, scale: real) returns (scaled: int)
      ensures scaled == ScaledLimit(limit, scale)
    {
      scaled := (limit as real * scale).Floor;
      if scaled < 0 {
        scaled := 0;
      }
    }

    /** The channel limiter's call, with a note of each request it lets through. */
    method AllowChannel(now: Time, key: string, tokens: int, maxRPM: int, maxTPM: int) returns (ok: bool)
      requires Valid()
      modifies this`admitted, channelLimiter, channelLimiter.buckets.Values
      ensures Valid() && fresh(Repr() - old(Repr()))
      ensures ok == Admits(old(View()).channels, Call(now, key, 1, tokens, maxRPM, maxTPM))
      ensures View() == old(View()).(channels := Limiter.After(old(View()).channels, Call(now, key, 1, tokens, maxRPM, maxTPM)),
                                    admitted := if ok then old(admitted) + 1 else old(admitted))
    {
      ok := channelLimiter.Allow(now, key, 1, tokens, maxRPM, maxTPM);
      if ok {
        admitted := admitted + 1;
      }
    }

    method LimitChannel(th: Thread, now: Time, scale: real) returns (next: Thread)
      requires Valid() && Chosen(th)
      modifies this`admitted, channelLimiter, channelLimiter.buckets.Values
      ensures Valid() && fresh(Repr() - old(Repr()))
      ensures var call := ChannelCall(th, th.provider.value, th.key.value, now, scale);
              var ok := Admits(old(View()).channels, call);
        && next == Go(th, if ok then Forward else Finished(Rejected))
        && View() == old(View()).(channels := Limiter.After(old(View()).channels, call),
                                  admitted := if ok then old(admitted) + 1 else old(admitted))
    {
      var p, k := th.provider.value, th.key.value;
      var maxRPM := ScaleLimit(p.maxRPM, scale);
      var maxTPM := ScaleLimit(p.maxTPM, scale);
      var ok := AllowChannel(now, "provider:" + p.name + ":" + k.alias, th.estimate, maxRPM, maxTPM);
      next := th.(phase := if ok then Forward else Finished(Rejected));
    }

    method RecordFailedKey(th: Thread, now: Time) returns (next: Thread)
      requires Valid() && Chosen(th) && th.phase.RecordFailure? && KeyedByName(ListingsOf(store.db))
      modifies this, store
      ensures Valid() && Repr() == old(Repr()) && KeyedByName(ListingsOf(store.db))
      ensures View() == WithDatabase(cfg, old(View()), RecordHealth(old(store.db), th,
                 OnFailure(cfg.policy, th.key.value.consecutiveErrs, th.provider.value.recoverInterval, now), th.phase.status))
      ensures next == Go(th, CountFailure).(read := ListingsOf(store.db))
    {
      MarkProviderKeyFailure(th.provider.value, th.key.value, th.phase.status, now);
      next := th.(phase := CountFailure, read := ListingsOf(store.db));
    }

    method RecordGoodKey(th: Thread) returns (next: Thread)
      requires Valid() && Chosen(th) && KeyedByName(ListingsOf(store.db))
      modifies this, store
      ensures Valid() && Repr() == old(Repr()) && KeyedByName(ListingsOf(store.db))
      ensures View() == WithDatabase(cfg, old(View()), RecordHealth(old(store.db), th, OnSuccess(), "ok"))
      ensures next == Go(th, Settle).(read := ListingsOf(store.db))
    {
      MarkProviderKeySuccess(th.key.value);
      next := th.(phase := Settle, read := ListingsOf(store.db));
    }

    method SettleCharge(th: Thread, prices: seq<PriceRule>) returns (next: Thread)
      ensures forall input: Input :: input.priceListing == prices ==> next == AfterSettle(cfg, th, input)
    {
      if !cfg.billing {
        return th.(phase := AddUsage);
      }
      var price := ResolveModelPriceMicros(prices, th.model, cfg.defaultPrice);
      var tokens := if th.estimate > th.total then th.estimate else th.total;
      var charge := Charge(tokens, price);
      return th.(phase := if charge > 0 then Debit else AddUsage, charge := charge);
    }

    method DebitAccount(th: Thread) returns (next: Thread)
      requires Valid() && KeyedByName(ListingsOf(store.db)) && th.charge > 0
      modifies this, store
      ensures Valid() && Repr() == old(Repr()) && KeyedByName(ListingsOf(store.db))
      ensures View() == WithDatabase(cfg, old(View()), Deduct(old(store.db), th.token, th.charge, "usage", th.model))
      ensures next == Go(th, AddUsage).(debited := CanDeduct(old(store.db), th.token, th.charge), read := ListingsOf(store.db))
    {
      var ok := store.DeductAPIKeyBalance(th.token, th.charge, "usage", th.model);
      ReloadSnapshot();
      next := th.(phase := AddUsage, debited := ok, read := ListingsOf(store.db));
    }

    method RecordUsage(th: Thread) returns (next: Thread)
      requires Valid() && Chosen(th) && KeyedByName(ListingsOf(store.db))
      modifies store
      ensures Valid() && Repr() == old(Repr()) && KeyedByName(ListingsOf(store.db))
      ensures View() == old(View()).(db := old(store.db).(usage := old(store.db).usage + [UsageRow(th)]))
      ensures next == Go(th, CountSuccess)
    {
      var tokens := if th.estimate > th.total then th.estimate else th.total;
      store.AddUsage(UsageRecord(th.token, th.provider.value.name, th.key.value.alias, th.model, tokens));
      next := th.(phase := CountSuccess);
    }

    // ---- The whole handler ----

    /** The request as the handler has it: the server, its thread, the bindings. */
    ghost function Here(th: Thread): Local
      reads this, store, userLimiter, channelLimiter, selector
    {
      Local(View(), th, selector.stickySession)
    }

    /** Authentication and the rules. */
    method Screen(th0: Thread, w: World) returns (th: Thread)
      requires th0.phase.Authenticate?
      ensures LeadsTo(cfg, w, Here(th0), Here(th))
      ensures th.phase == Finished(Rejected) || (th.phase.Estimate? && th.account.Some?)
    {
      LeadsToSelf(cfg, w, Here(th0));
      th := Authenticate(th0, w.tenantEnabled);
      LeadsToRead(cfg, w, Here(th0), Here(th0), th);
      if th.phase.RuleLoop? {
        ghost var known := th;
        th := RunRules(th);
        LeadsToRead(cfg, w, Here(th0), Here(known), th);
      }
    }

    /** The estimate and the check of the live balance. */
    method Afford(ghost l0: Local, th: Thread, w: World) returns (next: Thread)
      requires th.phase.Estimate? && th.account.Some? && LeadsTo(cfg, w, l0, Here(th))
      requires cfg.billing ==> Listing(w.firstPrices, store.db.prices)
      ensures LeadsTo(cfg, w, l0, Here(next))
      ensures next.phase == Finished(Rejected) || (next.phase.UserLimit? && next.account.Some?)
    {
      next := EstimateCost(th, w.firstPrices);
      LeadsToRead(cfg, w, l0, Here(th), next);
      if next.phase.CheckBalance? {
        ghost var priced := next;
        next := CheckLiveBalance(next, next.phase.cost);
        LeadsToRead(cfg, w, l0, Here(priced), next);
      }
    }

    method Select(ghost l0: Local, th: Thread, w: World) returns (next: Thread)
      requires Valid() && Selection.Intn(w.rand) && th.phase.Choose?
      requires LeadsTo(cfg, w, l0, Here(th))
      modifies selector
      ensures LeadsTo(cfg, w, l0, Here(next))
      ensures next.phase == Finished(Rejected) || (next.phase.ChannelLimit? && Chosen(next))
    {
      ghost var asked := Here(th);
      ghost var choice;
      next, choice := ChooseProvider(th, w);
      LeadsToChoice(cfg, w, l0, asked, choice, next, selector.stickySession);
    }

    /** The selection and the channel limiter. */
    method Route(ghost l0: Local, th: Thread, w: World) returns (next: Thread)
      requires Valid() && Selection.Intn(w.rand) && th.phase.Choose?
      requires LeadsTo(cfg, w, l0, Here(th))
      modifies this`admitted, selector, channelLimiter, channelLimiter.buckets.Values
      ensures Valid() && fresh(Repr() - old(Repr()))
      ensures LeadsTo(cfg, w, l0, Here(next))
      ensures next.phase == Finished(Rejected) || (next.phase.Forward? && Chosen(next))
    {
      next := Select(l0, th, w);
      if next.phase.ChannelLimit? {
        next := PassChannel(l0, next, w);
      }
    }

    method PassChannel(ghost l0: Local, th: Thread, w: World) returns (next: Thread)
      requires Valid() && th.phase.ChannelLimit? && Chosen(th)
      requires LeadsTo(cfg, w, l0, Here(th))
      modifies this`admitted, channelLimiter, channelLimiter.buckets.Values
      ensures Valid() && fresh(Repr() - old(Repr()))
      ensures LeadsTo(cfg, w, l0, Here(next))
      ensures next.phase == Finished(Rejected) || (next.phase.Forward? && Chosen(next))
    {
      ghost var chosen := Here(th);
      next := LimitChannel(th, w.channelClock, w.scale);
      LeadsPastChannelLimit(cfg, w, l0, chosen, View(), next);
    }

    /** The user limiter, then the route. */
    method Enter(ghost l0: Local, th: Thread, w: World) returns (next: Thread)
      requires Valid() && Selection.Intn(w.rand) && th.phase.UserLimit? && th.account.Some?
      requires LeadsTo(cfg, w, l0, Here(th))
      modifies this`admitted, selector, userLimiter, userLimiter.buckets.Values, channelLimiter, channelLimiter.buckets.Values
      ensures Valid() && fresh(Repr() - old(Repr()))
      ensures LeadsTo(cfg, w, l0, Here(next))
      ensures next.phase == Finished(Rejected) || (next.phase.Forward? && Chosen(next))
    {
      ghost var asked := Here(th);
      next := LimitUser(th, w.userClock);
      LeadsPastUserLimit(cfg, w, l0, asked, View(), next);
      if next.phase.Choose? {
        next := Route(l0, next, w);
      }
    }

    /** Everything before the limiters. */
    method Clear(th0: Thread, w: World) returns (th: Thread)
      requires th0.phase.Authenticate?
      requires cfg.billing ==> Listing(w.firstPrices, store.db.prices)
      ensures LeadsTo(cfg, w, Here(th0), Here(th))
      ensures th.phase == Finished(Rejected) || (th.phase.UserLimit? && th.account.Some?)
    {
      th := Screen(th0, w);
      if th.phase.Estimate? {
        th := Afford(Here(th0), th, w);
      }
    }

    /** The counter the thread is at. */
    method Tally(th: Thread)
      requires th.phase.CountFailure? || th.phase.CountSuccess? || th.phase.CountCharge?
      modifies this
      ensures View() == old(View()).(stats := NextStats(old(View()).stats, th))
      ensures Stat("proxy_error") == old(Stat("proxy_error")) + (if th.phase.CountFailure? then 1 else 0)
      ensures Stat("proxy_ok") == old(Stat("proxy_ok")) + (if th.phase.CountSuccess? then 1 else 0)
      ensures Stat("billing_charged") == old(Stat("billing_charged")) + (if th.phase.CountCharge? then 1 else 0)
    {
      if th.phase.CountFailure? {
        IncStat("proxy_error");
      } else if th.phase.CountSuccess? {
        IncStat("proxy_ok");
      } else {
        IncStat("billing_charged");
      }
    }

    method CountAndGo(ghost l0: Local, th: Thread, w: World) returns (next: Thread)
      requires th.phase.CountFailure? || th.phase.CountSuccess? || th.phase.CountCharge?
      requires Valid() && LeadsTo(cfg, w, l0, Here(th))
      modifies this
      ensures Valid() && Repr() == old(Repr())
      ensures LeadsTo(cfg, w, l0, Here(next))
      ensures next == Go(th, AfterCount(th))
    {
      ghost var counting := Here(th);
      Tally(th);
      next := th.(phase := AfterCount(th));
      LeadsPastCount(cfg, w, l0, counting, View());
    }

    /** A failed reply: the key's health, then the counter. */
    method Fail(ghost l0: Local, th: Thread, w: World) returns (next: Thread)
      requires Valid() && Chosen(th) && th.phase.RecordFailure? && KeyedByName(ListingsOf(store.db))
      requires LeadsTo(cfg, w, l0, Here(th))
      modifies this, store
      ensures Valid() && Repr() == old(Repr()) && KeyedByName(ListingsOf(store.db))
      ensures LeadsTo(cfg, w, l0, Here(next)) && next.phase == Finished(Failed)
    {
      ghost var failing := Here(th);
      next := RecordFailedKey(th, w.failureClock);
      LeadsPastWrite(cfg, w, l0, failing, store.db, th, CountFailure);
      next := CountAndGo(l0, next, w);
    }

    /** The price, the charge and the debit of a served request. */
    method Bill(ghost l0: Local, th: Thread, w: World) returns (next: Thread)
      requires Valid() && Chosen(th) && th.phase.Settle? && KeyedByName(ListingsOf(store.db))
      requires cfg.billing ==> Listing(w.secondPrices, store.db.prices)
      requires LeadsTo(cfg, w, l0, Here(th))
      modifies this, store
      ensures Valid() && Repr() == old(Repr()) && KeyedByName(ListingsOf(store.db))
      ensures LeadsTo(cfg, w, l0, Here(next)) && next.phase.AddUsage? && Chosen(next)
    {
      next := SettleCharge(th, w.secondPrices);
      LeadsToRead(cfg, w, l0, Here(th), next);
      if next.phase.Debit? {
        next := Pay(l0, next, w);
      }
    }

    method Pay(ghost l0: Local, th: Thread, w: World) returns (next: Thread)
      requires Valid() && Chosen(th) && th.phase.Debit? && th.charge > 0 && KeyedByName(ListingsOf(store.db))
      requires LeadsTo(cfg, w, l0, Here(th))
      modifies this, store
      ensures Valid() && Repr() == old(Repr()) && KeyedByName(ListingsOf(store.db))
      ensures LeadsTo(cfg, w, l0, Here(next)) && next.phase.AddUsage? && Chosen(next)
    {
      ghost var settled := Here(th);
      next := DebitAccount(th);
      LeadsPastWrite(cfg, w, l0, settled, store.db, th.(debited := next.debited), AddUsage);
    }

    /** The usage row and the counters of a served request. */
    method Count(ghost l0: Local, th: Thread, w: World) returns (next: Thread)
      requires Valid() && Chosen(th) && th.phase.AddUsage? && KeyedByName(ListingsOf(store.db))
      requires LeadsTo(cfg, w, l0, Here(th))
      modifies this, store
      ensures Valid() && Repr() == old(Repr()) && KeyedByName(ListingsOf(store.db))
      ensures LeadsTo(cfg, w, l0, Here(next)) && next.phase == Finished(Served)
    {
      ghost var billed := Here(th);
      next := RecordUsage(th);
      LeadsPastUsage(cfg, w, l0, billed, View());
      next := CountAndGo(l0, next, w);
      if next.phase.CountCharge? {
        next := CountAndGo(l0, next, w);
      }
    }

    /** A good reply: the key's health, the bill, the books. */
    method Serve(ghost l0: Local, th: Thread, w: World) returns (next: Thread)
      requires Valid() && Chosen(th) && th.phase.RecordSuccess? && KeyedByName(ListingsOf(store.db))
      requires cfg.billing ==> Listing(w.secondPrices, store.db.prices)
      requires LeadsTo(cfg, w, l0, Here(th))
      modifies this, store
      ensures Valid() && Repr() == old(Repr()) && KeyedByName(ListingsOf(store.db))
      ensures LeadsTo(cfg, w, l0, Here(next)) && next.phase == Finished(Served)
    {
      ghost var replied := Here(th);
      next := RecordGoodKey(th);
      LeadsPastWrite(cfg, w, l0, replied, store.db, th, Settle);
      next := Bill(l0, next, w);
      next := Count(l0, next, w);
    }

    /** The upstream's reply, and what it brings about. */
    method Relay(ghost l0: Local, th: Thread, w: World) returns (next: Thread)
      requires Valid() && Chosen(th) && th.phase.Forward? && KeyedByName(ListingsOf(store.db))
      requires cfg.billing ==> Listing(w.secondPrices, store.db.prices)
      requires LeadsTo(cfg, w, l0, Here(th))
      modifies this, store
      ensures Valid() && Repr() == old(Repr()) && KeyedByName(ListingsOf(store.db))
      ensures LeadsTo(cfg, w, l0, Here(next)) && next.phase == Finished(if w.reply.Failure? then Failed else Served)
    {
      match w.reply {
        case Failure(status) => next := th.(phase := RecordFailure(status));
        case Usage(total) => next := th.(phase := RecordSuccess, total := total);
      }
      LeadsToRead(cfg, w, l0, Here(th), next);
      if next.phase.RecordFailure? {
        next := Fail(l0, next, w);
      } else {
        next := Serve(l0, next, w);
      }
    }

    /** From the user limiter to the end. */
    method EnterAndRelay(ghost l0: Local, th: Thread, w: World) returns (next: Thread)
      requires Valid() && Selection.Intn(w.rand) && KeyedByName(ListingsOf(store.db))
      requires cfg.billing ==> Listing(w.secondPrices, store.db.prices)
      requires th.phase.UserLimit? && th.account.Some? && LeadsTo(cfg, w, l0, Here(th))
      modifies Repr()
      ensures Valid() && fresh(Repr() - old(Repr())) && KeyedByName(ListingsOf(store.db))
      ensures LeadsTo(cfg, w, l0, Here(next)) && next.phase.Finished?
    {
      next := Enter(l0, th, w);
      if next.phase.Forward? {
        next := Relay(l0, next, w);
      }
    }

    /** A request from its arrival to its end. */
    method ServeAlone(th0: Thread, w: World) returns (th: Thread)
      requires Valid() && Selection.Intn(w.rand) && KeyedByName(ListingsOf(store.db)) && th0.phase.Authenticate?
      requires cfg.billing ==> Listing(w.firstPrices, store.db.prices) && Listing(w.secondPrices, store.db.prices)
      modifies Repr()
      ensures Valid() && fresh(Repr() - old(Repr())) && KeyedByName(ListingsOf(store.db))
      ensures LeadsTo(cfg, w, old(Here(th0)), Here(th)) && th.phase.Finished?
    {
      ghost var l0 := Here(th0);
      th := Clear(th0, w);
      if th.phase.UserLimit? {
        th := EnterAndRelay(l0, th, w);
      }
    }

    /**
     handleProxy, undisturbed: what it does to the server is the state machine's
     steps by one thread, every input of theirs this world's; it ends as the gates and
     the upstream's reply decide, over freshly published tables by their rows; and it
     leaves the health, the debit, the usage row and the counters of that end.
     */
    method HandleProxy(token: string, model: string, path: string, bodyTokens: nat, w: World) returns (end: End)
      requires Valid() && Selection.Intn(w.rand) && KeyedByName(ListingsOf(store.db))
      requires cfg.billing ==> Listing(w.firstPrices, store.db.prices) && Listing(w.secondPrices, store.db.prices)
      modifies Repr()
      ensures Valid() && fresh(Repr() - old(Repr())) && KeyedByName(ListingsOf(store.db))
      ensures var th0 := NewRequest(token, model, path, bodyTokens);
              exists th: Thread :: th.phase == Finished(end) && Verdict.Handled(cfg, w, old(Here(th0)), Here(th))
    {
      var th0 := NewRequest(token, model, path, bodyTokens);
      ghost var l0 := Here(th0);
      var th := ServeAlone(th0, w);
      Verdict.EndIsHandled(cfg, w, l0, Here(th));
      end := th.phase.end;
    }
  }
}
