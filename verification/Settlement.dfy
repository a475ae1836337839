/**
 What a request served alone leaves behind, to the last row: the health of the key it
 used, the debit and its ledger row, the usage row, the counters and the publication.
 */
module Settlement {
  import opened Base
  import opened Billing
  import opened Gateway
  import opened GatewayReload
  import opened Handler
  import opened Health
  import opened Prices
  import opened SnapshotView
  import opened Tables

  // ---- What each end should leave ----

  /** The rows of that id get these health columns; all others stay. */
  ghost predicate HealthWritten(before: seq<ProviderKey>, after: seq<ProviderKey>, id: int, errs: int, cooldown: int, status: string) {
    && |after| == |before|
    && forall i :: 0 <= i < |before| ==>
         after[i] == if before[i].id == id then before[i].(consecutiveErrs := errs, cooldownUntil := cooldown, lastStatus := status) else before[i]
  }

  /** The larger of the estimate and the total the upstream reports. */
  function Tokens(w: World, th: Thread): int
    requires w.reply.Usage?
  {
    if th.estimate > w.reply.total then th.estimate else w.reply.total
  }

  /** What those tokens cost, at a price for a million, in whole micros. */
  function Cost(c: Config, w: World, th: Thread): int
    requires w.reply.Usage?
  {
    Tokens(w, th) * FirstPrice(w.secondPrices, th.model, c.defaultPrice) / 1_000_000
  }

  predicate Owes(c: Config, w: World, th: Thread)
    requires w.reply.Usage?
  {
    c.billing && Cost(c, w, th) > 0
  }

  /** The request owes something and the balance covers it. */
  predicate Pays(c: Config, w: World, db: Database, th: Thread)
    requires w.reply.Usage?
  {
    Owes(c, w, th) && th.token in db.apiKeys && db.apiKeys[th.token].balanceMicros >= Cost(c, w, th)
  }

  /** The balances and the ledger: the cost taken from the token's row with one ledger row for it, or both as they were. */
  predicate Debited(c: Config, w: World, before: Database, after: Database, th: Thread)
    requires w.reply.Usage?
  {
    if Pays(c, w, before, th) then
      var row, cost := before.apiKeys[th.token], Cost(c, w, th);
      && after.apiKeys == before.apiKeys[th.token := row.(balanceMicros := row.balanceMicros - cost)]
      && after.txns == before.txns + [BillingTxn(th.token, -cost, "usage", th.model)]
    else after.apiKeys == before.apiKeys && after.txns == before.txns
  }

  /** The errors and the cooldown a failure writes, from the request's copies of the provider and the key. */
  function FailedErrs(p: Policy, th: Thread): int
    requires Chosen(th)
  {
    var errs := th.key.value.consecutiveErrs + 1;
    if errs >= p.failThreshold then 0 else errs
  }

  function FailedCooldown(p: Policy, w: World, th: Thread): int
    requires Chosen(th)
  {
    var configured, recover := p.cooldownSec * 1_000_000_000, th.provider.value.recoverInterval;
    if th.key.value.consecutiveErrs + 1 >= p.failThreshold then
      (w.failureClock + if recover > configured then recover else configured) / 1_000_000_000 - 62_135_596_800
    else 0
  }

  /** The tables a request writes aside. */
  predicate RestIsSame(before: Database, after: Database) {
    after.(providerKeys := before.providerKeys, apiKeys := before.apiKeys, txns := before.txns, usage := before.usage) == before
  }

  predicate MoneyIsSame(before: Database, after: Database) {
    after.apiKeys == before.apiKeys && after.txns == before.txns
  }

  ghost predicate FailureWritten(c: Config, w: World, before: Database, after: Database, th: Thread) {
    && Chosen(th) && w.reply.Failure? && RestIsSame(before, after) && MoneyIsSame(before, after) && after.usage == before.usage
    && HealthWritten(before.providerKeys, after.providerKeys, th.key.value.id, FailedErrs(c.policy, th), FailedCooldown(c.policy, w, th), w.reply.status)
  }

  ghost predicate SuccessWritten(w: World, before: Database, after: Database, th: Thread) {
    && Chosen(th) && w.reply.Usage? && RestIsSame(before, after)
    && HealthWritten(before.providerKeys, after.providerKeys, th.key.value.id, 0, 0, "ok")
  }

  predicate UsageWritten(w: World, before: Database, after: Database, th: Thread)
    requires Chosen(th) && w.reply.Usage?
  {
    after.usage == before.usage + [UsageRecord(th.token, th.provider.value.name, th.key.value.alias, th.model, Tokens(w, th))]
  }

  ghost predicate IsPublished(c: Config, s: Shared) {
    s.snapshot == View(ListingsOf(s.db), c.decode)
  }

  predicate Untouched(s: Shared, now: Shared) {
    now.db == s.db && now.snapshot == s.snapshot && now.stats == s.stats
  }

  /** A failure: the key's health, the publication, the error counter. */
  ghost predicate LeavesFailure(c: Config, w: World, s: Shared, now: Shared, th: Thread) {
    && FailureWritten(c, w, s.db, now.db, th) && IsPublished(c, now)
    && now.stats == s.stats.(proxyError := s.stats.proxyError + 1)
  }

  /** The tables after a served request: the key's health, the debit and the usage row, and nothing else. */
  ghost predicate BooksKept(c: Config, w: World, before: Database, after: Database, th: Thread) {
    SuccessWritten(w, before, after, th) && Debited(c, w, before, after, th) && UsageWritten(w, before, after, th)
  }

  /** A success: the books, the publication, one request served, and one charge counted if it owes something. */
  ghost predicate LeavesSuccess(c: Config, w: World, s: Shared, now: Shared, th: Thread) {
    && BooksKept(c, w, s.db, now.db, th) && IsPublished(c, now)
    && now.stats == Stats(s.stats.proxyOk + 1, s.stats.proxyError, s.stats.billingCharged + if Owes(c, w, th) then 1 else 0)
  }

  /** What a request leaves, by its end. */
  ghost predicate Leaves(c: Config, w: World, s: Shared, now: Shared, th: Thread) {
    match th.phase
    case Finished(Rejected) => Untouched(s, now)
    case Finished(Failed) => LeavesFailure(c, w, s, now, th)
    case Finished(Served) => LeavesSuccess(c, w, s, now, th)
    case _ => false
  }

  // ---- Along the way ----

  ghost predicate Reading(c: Config, now: Shared, th: Thread) {
    th.phase.Reload? && th.phase.tablesRead <= 5 && ReadsAgree(th.read, ListingsOf(now.db), th.phase.tablesRead)
  }

  predicate ChargeIsCost(c: Config, w: World, th: Thread)
    requires w.reply.Usage?
  {
    if Owes(c, w, th) then th.charge == Cost(c, w, th) else th.charge <= 0
  }

  ghost predicate Failing(c: Config, w: World, s: Shared, l: Local) {
    FailureWritten(c, w, s.db, l.shared.db, l.thread) && l.shared.stats == s.stats
  }

  ghost predicate Healing(w: World, s: Shared, l: Local) {
    && SuccessWritten(w, s.db, l.shared.db, l.thread) && MoneyIsSame(s.db, l.shared.db) && l.shared.db.usage == s.db.usage
    && l.shared.stats == s.stats && l.thread.total == w.reply.total
  }

  ghost predicate Charged(c: Config, w: World, s: Shared, l: Local) {
    && SuccessWritten(w, s.db, l.shared.db, l.thread) && Debited(c, w, s.db, l.shared.db, l.thread) && l.shared.db.usage == s.db.usage
    && l.shared.stats == s.stats && l.thread.total == w.reply.total && ChargeIsCost(c, w, l.thread)
  }

  ghost predicate Served(c: Config, w: World, s: Shared, l: Local) {
    && w.reply.Usage? && ChargeIsCost(c, w, l.thread) && BooksKept(c, w, s.db, l.shared.db, l.thread) && IsPublished(c, l.shared)
  }

  /** What a request alone has left behind at each of its calls. */
  ghost predicate Settling(c: Config, w: World, s: Shared, l: Local) {
    var th := l.thread;
    match th.phase
    case RecordFailure(status) => Untouched(s, l.shared) && Chosen(th) && w.reply == Failure(status)
    case CountFailure => Failing(c, w, s, l) && IsPublished(c, l.shared)
    case RecordSuccess =>
      Untouched(s, l.shared) && Chosen(th) && w.reply.Usage? && th.total == w.reply.total && th.charge == 0
    case Settle => Healing(w, s, l) && IsPublished(c, l.shared) && th.charge == 0
    case Debit => Healing(w, s, l) && IsPublished(c, l.shared) && Owes(c, w, th) && th.charge == Cost(c, w, th)
    case AddUsage => Charged(c, w, s, l) && IsPublished(c, l.shared)
    case CountSuccess => Served(c, w, s, l) && l.shared.stats == s.stats
    case CountCharge => Served(c, w, s, l) && Owes(c, w, th) && l.shared.stats == s.stats.(proxyOk := s.stats.proxyOk + 1)
    case Reload(_, next) =>
      && Reading(c, l.shared, th)
      && (if next.CountFailure? then Failing(c, w, s, l) else if next.Settle? then Healing(w, s, l) && th.charge == 0
          else next.AddUsage? && Charged(c, w, s, l))
    case Finished(end) =>
      if end.Rejected? then Untouched(s, l.shared)
      else if end.Failed? then LeavesFailure(c, w, s, l.shared, th)
      else end.Served? && LeavesSuccess(c, w, s, l.shared, th)
    case Forward => Untouched(s, l.shared) && Chosen(th) && th.charge == 0
    case _ => Untouched(s, l.shared) && th.charge == 0
  }

  /** A step of the machine, with the world's input. */
  predicate Steps(c: Config, w: World, l: Local, l': Local, input: Input) {
    && CanStep(c, l.shared, l.thread, input)
    && input == InputAt(w, l.thread.phase, input.choice)
    && l'.shared == NextShared(c, l.shared, l.thread, input)
    && l'.thread == NextThread(c, l.shared, l.thread, input)
  }

  // ---- One step ----

  predicate Early(p: Phase) {
    p.Authenticate? || p.RuleLoop? || p.Estimate? || p.CheckBalance? || p.UserLimit? || p.Choose? || p.ChannelLimit?
  }

  lemma EarlyThread(c: Config, s: Shared, th: Thread, input: Input)
    requires Early(th.phase)
    ensures var after := NextThread(c, s, th, input);
      && after.charge == th.charge
      && (Early(after.phase) || after.phase == Finished(Rejected) || (after.phase.Forward? && Chosen(after)))
  {
    StepMoves(c, s, th, input);
  }

  lemma EarlyShared(c: Config, s: Shared, th: Thread, input: Input)
    requires Early(th.phase) || th.phase.Forward? || th.phase.Finished? || th.phase.Settle?
    ensures Untouched(s, NextShared(c, s, th, input))
  {
  }

  lemma EarlySettling(c: Config, w: World, s: Shared, l: Local, l': Local, input: Input)
    requires Settling(c, w, s, l) && Steps(c, w, l, l', input) && Early(l.thread.phase)
    ensures Settling(c, w, s, l')
  {
    EarlyThread(c, l.shared, l.thread, input);
    EarlyShared(c, l.shared, l.thread, input);
  }

  lemma ReplySettling(c: Config, w: World, s: Shared, l: Local, l': Local, input: Input)
    requires Settling(c, w, s, l) && Steps(c, w, l, l', input) && l.thread.phase.Forward?
    ensures Settling(c, w, s, l')
  {
    EarlyShared(c, l.shared, l.thread, input);
  }

  lemma FailureSettling(c: Config, w: World, s: Shared, l: Local, l': Local, input: Input)
    requires Settling(c, w, s, l) && Steps(c, w, l, l', input) && l.thread.phase.RecordFailure?
    ensures Settling(c, w, s, l')
  {
    var th := l.thread;
    assert l'.thread == Go(th, Reload(0, CountFailure));
    assert l'.shared.db == RecordHealth(l.shared.db, th,
      OnFailure(c.policy, th.key.value.consecutiveErrs, th.provider.value.recoverInterval, w.failureClock), th.phase.status);
  }

  lemma SuccessSettling(c: Config, w: World, s: Shared, l: Local, l': Local, input: Input)
    requires Settling(c, w, s, l) && Steps(c, w, l, l', input) && l.thread.phase.RecordSuccess?
    ensures Settling(c, w, s, l')
  {
    assert l'.thread == Go(l.thread, Reload(0, Settle));
    assert l'.shared.db == RecordHealth(l.shared.db, l.thread, OnSuccess(), "ok");
  }

  /** A reload leaves everything that is claimed of the tables as it is. */
  lemma ReadsAside(c: Config, w: World, s: Shared, l: Local, l': Local)
    requires l'.shared == l.shared.(snapshot := l'.shared.snapshot) && l'.thread == l.thread.(phase := l'.thread.phase, read := l'.thread.read)
    ensures Failing(c, w, s, l') == Failing(c, w, s, l) && Healing(w, s, l') == Healing(w, s, l) && Charged(c, w, s, l') == Charged(c, w, s, l)
  {
  }

  lemma ReadSettling(c: Config, w: World, s: Shared, l: Local, l': Local, input: Input)
    requires Settling(c, w, s, l) && Steps(c, w, l, l', input) && l.thread.phase.Reload? && l.thread.phase.tablesRead < 5
    ensures Settling(c, w, s, l')
  {
    var th, next, n := l.thread, l.thread.phase.next, l.thread.phase.tablesRead;
    assert l'.thread == AfterReload(l.shared, th, n, next) && l'.shared == l.shared;
    ReadsOneMore(l.shared, th, ListingsOf(l.shared.db));
    ReadsAside(c, w, s, l, l');
  }

  lemma PublicationSettling(c: Config, w: World, s: Shared, l: Local, l': Local, input: Input)
    requires Settling(c, w, s, l) && Steps(c, w, l, l', input) && l.thread.phase.Reload? && l.thread.phase.tablesRead == 5
    ensures Settling(c, w, s, l')
  {
    var th, next := l.thread, l.thread.phase.next;
    assert l'.thread == AfterReload(l.shared, th, 5, next) == Go(th, next) && th.read == ListingsOf(l.shared.db);
    assert l'.shared == l.shared.(snapshot := View(th.read, c.decode));
    ReadsAside(c, w, s, l, l');
  }

  lemma ChargeSettling(c: Config, w: World, s: Shared, l: Local, l': Local, input: Input)
    requires Settling(c, w, s, l) && Steps(c, w, l, l', input) && l.thread.phase.Settle?
    ensures Settling(c, w, s, l')
  {
    var th := l.thread;
    EarlyShared(c, l.shared, th, input);
    assert l'.thread == AfterSettle(c, th, input);
    PositiveCharge(Tokens(w, th), FirstPrice(w.secondPrices, th.model, c.defaultPrice));
  }

  lemma DebitSettling(c: Config, w: World, s: Shared, l: Local, l': Local, input: Input)
    requires Settling(c, w, s, l) && Steps(c, w, l, l', input) && l.thread.phase.Debit?
    ensures Settling(c, w, s, l')
  {
    var th := l.thread;
    assert l'.shared.db == Deduct(l.shared.db, th.token, th.charge, "usage", th.model);
  }

  lemma UsageSettling(c: Config, w: World, s: Shared, l: Local, l': Local, input: Input)
    requires Settling(c, w, s, l) && Steps(c, w, l, l', input) && l.thread.phase.AddUsage?
    ensures Settling(c, w, s, l')
  {
    var th := l.thread;
    assert l'.shared.db == l.shared.db.(usage := l.shared.db.usage + [UsageRow(th)]);
    assert ListingsOf(l'.shared.db) == ListingsOf(l.shared.db);
  }

  lemma ErrorSettling(c: Config, w: World, s: Shared, l: Local, l': Local, input: Input)
    requires Settling(c, w, s, l) && Steps(c, w, l, l', input) && l.thread.phase.CountFailure?
    ensures Settling(c, w, s, l')
  {
    assert l'.shared == l.shared.(stats := NextStats(l.shared.stats, l.thread));
    assert l'.thread == Go(l.thread, Finished(Failed));
  }

  lemma TallySettling(c: Config, w: World, s: Shared, l: Local, l': Local, input: Input)
    requires Settling(c, w, s, l) && Steps(c, w, l, l', input) && (l.thread.phase.CountSuccess? || l.thread.phase.CountCharge?)
    ensures Settling(c, w, s, l')
  {
    assert l'.shared == l.shared.(stats := NextStats(l.shared.stats, l.thread));
    assert l'.thread == Go(l.thread, l'.thread.phase);
  }

  /** The steps that write a table or a counter. */
  lemma WriteSettling(c: Config, w: World, s: Shared, l: Local, l': Local, input: Input)
    requires Settling(c, w, s, l) && Steps(c, w, l, l', input)
    requires !Early(l.thread.phase) && !l.thread.phase.Forward? && !l.thread.phase.Settle? && !l.thread.phase.Reload? && !l.thread.phase.Finished?
    ensures Settling(c, w, s, l')
  {
    var p := l.thread.phase;
    if p.RecordFailure? {
      FailureSettling(c, w, s, l, l', input);
    } else if p.RecordSuccess? {
      SuccessSettling(c, w, s, l, l', input);
    } else if p.Debit? {
      DebitSettling(c, w, s, l, l', input);
    } else if p.AddUsage? {
      UsageSettling(c, w, s, l, l', input);
    } else if p.CountFailure? {
      ErrorSettling(c, w, s, l, l', input);
    } else {
      TallySettling(c, w, s, l, l', input);
    }
  }

  lemma StepSettling(c: Config, w: World, s: Shared, l: Local, l': Local, input: Input)
    requires Settling(c, w, s, l) && Steps(c, w, l, l', input)
    ensures Settling(c, w, s, l')
  {
    var p := l.thread.phase;
    if Early(p) {
      EarlySettling(c, w, s, l, l', input);
    } else if p.Forward? {
      ReplySettling(c, w, s, l, l', input);
    } else if p.Settle? {
      ChargeSettling(c, w, s, l, l', input);
    } else if p.Reload? {
      if p.tablesRead < 5 {
        ReadSettling(c, w, s, l, l', input);
      } else {
        PublicationSettling(c, w, s, l, l', input);
      }
    } else if p.Finished? {
      assert l'.shared == l.shared && l'.thread == l.thread;
    } else {
      WriteSettling(c, w, s, l, l', input);
    }
  }

  // ---- The whole request ----

  lemma {:induction false} PathSettles(c: Config, w: World, path: seq<Local>)
    requires Path(c, w, path) && Settling(c, w, path[0].shared, path[0])
    ensures Settling(c, w, path[0].shared, path[|path| - 1])
  {
    if |path| > 1 {
      var n := |path| - 1;
      assert Path(c, w, path[..n]) by {
        assert forall i :: 0 <= i < n ==> path[..n][i] == path[i];
      }
      PathSettles(c, w, path[..n]);
      assert Move(c, w, path[n - 1], path[n - 1 + 1]);
      var choice :| MovesWith(c, w, path[n - 1], path[n], choice);
      StepSettling(c, w, path[0].shared, path[n - 1], path[n], InputAt(w, path[n - 1].thread.phase, choice));
    }
  }

  /**
   What a request served alone leaves: nothing when it is rejected; the failed key's
   health and an error counted when it fails; and when it is served, the key's health
   cleared, the larger of estimate and reported tokens charged at the listed price to
   a balance that covers it, with one ledger row, one usage row and its counters.
   */
  lemma EndSettles(c: Config, w: World, from: Local, to: Local)
    requires LeadsTo(c, w, from, to) && from.thread.phase.Authenticate? && from.thread.charge == 0
    requires to.thread.phase.Finished?
    ensures Leaves(c, w, from.shared, to.shared, to.thread)
  {
    var path :| Path(c, w, path) && path[0] == from && path[|path| - 1] == to;
    PathSettles(c, w, path);
  }
}
