/**
 Provider-key health: what an outcome writes back, and what that amounts to
 over a sequence of outcomes of one key.
 */
module Health {
  import opened Clock
  import opened Tables

  /** The gateway's settings for key health. */
  datatype Policy = Policy(failThreshold: int, cooldownSec: int)

  /** A threshold below one acts as one. */
  function Threshold(p: Policy): int { if p.failThreshold > 1 then p.failThreshold else 1 }

  /** How long a key rests: the longer of the provider's recover interval and the configured cooldown. */
  function Rest(p: Policy, recover: nat): nat {
    if recover > p.cooldownSec * SECOND then recover else p.cooldownSec * SECOND
  }

  /** The two health columns an outcome writes. */
  datatype Written = Written(errs: int, cooldown: int)

  function OnSuccess(): Written { Written(0, 0) }

  /** markProviderKeyFailure, from the error count of the caller's copy of the key. */
  function OnFailure(p: Policy, errs: int, recover: nat, now: Time): Written {
    if errs + 1 >= p.failThreshold then Written(0, UnixSeconds(now + Rest(p, recover))) else Written(errs + 1, 0)
  }

  /** UpdateProviderKeyHealth: the row of that id, if any, gets the columns. */
  function UpdateHealth(rows: seq<ProviderKey>, id: int, w: Written, status: string): (r: seq<ProviderKey>)
    ensures |r| == |rows|
    ensures forall i :: 0 <= i < |rows| ==>
      r[i] == if rows[i].id == id then rows[i].(consecutiveErrs := w.errs, cooldownUntil := w.cooldown, lastStatus := status) else rows[i]
  {
    seq(|rows|, i requires 0 <= i < |rows| =>
      if rows[i].id == id then rows[i].(consecutiveErrs := w.errs, cooldownUntil := w.cooldown, lastStatus := status) else rows[i])
  }

  // ---- Outcomes in sequence ----

  /** One outcome of the key: when it was written, which it was, and the provider's recover interval. */
  datatype KeyOutcome = KeyOutcome(done: Time, ok: bool, recover: nat)

  /** The health columns of a fresh key after a sequence of outcomes, each counted from the one before. */
  function After(p: Policy, run: seq<KeyOutcome>): Written {
    if run == [] then Written(0, 0)
    else
      var last := run[|run| - 1];
      if last.ok then OnSuccess() else OnFailure(p, After(p, run[..|run| - 1]).errs, last.recover, last.done)
  }

  /** now.After(time.Unix(cooldown, 0)) */
  predicate Live(w: Written, now: Time) { now > UnixTime(w.cooldown) }

  function FailuresSinceSuccess(run: seq<KeyOutcome>): nat {
    if run == [] || run[|run| - 1].ok then 0 else 1 + FailuresSinceSuccess(run[..|run| - 1])
  }

  /** Counting up modulo t: one more, or back to zero. */
  function CountUp(n: nat, t: int): int
    requires t >= 1
  {
    if n == 0 then 0
    else
      var c := CountUp(n - 1, t);
      if c + 1 == t then 0 else c + 1
  }

  lemma {:induction false} CountUpIsRemainder(n: nat, t: int) returns (q: int)
    requires t >= 1
    ensures 0 <= CountUp(n, t) < t && n == q * t + CountUp(n, t)
  {
    if n == 0 {
      q := 0;
    } else {
      var q' := CountUpIsRemainder(n - 1, t);
      q := if CountUp(n, t) == 0 then q' + 1 else q';
    }
  }

  lemma NextRemainder(n: nat, t: int)
    requires t >= 1
    ensures (n + 1) % t == if n % t + 1 == t then 0 else n % t + 1
  {
    var q := CountUpIsRemainder(n, t);
    var q' := CountUpIsRemainder(n + 1, t);
    QuotientIs(q, CountUp(n, t), n / t, n % t, t);
    QuotientIs(q', CountUp(n + 1, t), (n + 1) / t, (n + 1) % t, t);
  }

  /** The stored error count is the failures since the last success, modulo the threshold. */
  lemma {:induction false} ErrorsCountFailures(p: Policy, run: seq<KeyOutcome>)
    ensures After(p, run).errs == FailuresSinceSuccess(run) % Threshold(p)
  {
    if run != [] && !run[|run| - 1].ok {
      var before := run[..|run| - 1];
      ErrorsCountFailures(p, before);
      NextRemainder(FailuresSinceSuccess(before), Threshold(p));
    }
  }

  /** A cooldown is written exactly when the failures since the last success reach a multiple of the threshold. */
  lemma CooldownAtMultiples(p: Policy, run: seq<KeyOutcome>)
    requires run != []
    ensures var last, failures := run[|run| - 1], FailuresSinceSuccess(run);
            After(p, run).cooldown ==
              if failures > 0 && failures % Threshold(p) == 0 then UnixSeconds(last.done + Rest(p, last.recover)) else 0
  {
    var before := run[..|run| - 1];
    if !run[|run| - 1].ok {
      ErrorsCountFailures(p, before);
      NextRemainder(FailuresSinceSuccess(before), Threshold(p));
    }
  }

  /** Truncation to whole seconds shortens a rest, by less than one second. */
  lemma RestIsCutShort(p: Policy, done: Time, recover: nat, now: Time)
    ensures Live(Written(0, UnixSeconds(done + Rest(p, recover))), now) ==> now > done + Rest(p, recover) - SECOND
    ensures now > done + Rest(p, recover) ==> Live(Written(0, UnixSeconds(done + Rest(p, recover))), now)
  {
    var until := done + Rest(p, recover);
    assert UnixTime(UnixSeconds(until)) == until / SECOND * SECOND;
  }

  /** The key is live again though its rest, begun at `done`, is not over. */
  predicate LiveEarly(p: Policy, done: Time, recover: nat, now: Time) {
    Live(Written(0, UnixSeconds(done + Rest(p, recover))), now) && now <= done + Rest(p, recover)
  }

  ghost predicate RestsInFull(p: Policy, done: Time, recover: nat) {
    forall now: Time :: !LiveEarly(p, done, recover, now)
  }

  /** Exactly when nothing of a rest is lost: its end falls on a whole second. */
  lemma RestsInFullExactlyOnWholeSeconds(p: Policy, done: Time, recover: nat)
    ensures RestsInFull(p, done, recover) <==> (done + Rest(p, recover)) % SECOND == 0
  {
    var until: Time := done + Rest(p, recover);
    assert UnixTime(UnixSeconds(until)) == until / SECOND * SECOND == until - until % SECOND;
    if until % SECOND != 0 {
      assert LiveEarly(p, done, recover, until);
    } else {
      assert forall now: Time :: LiveEarly(p, done, recover, now) ==> now > until;
    }
  }

  /** An early pick: a rest of one second begun 999 milliseconds past a whole second is over after 2 milliseconds. */
  lemma EarlyPick(seconds: nat)
    ensures var p, done := Policy(1, 1), seconds * SECOND + 999_000_000;
            Live(OnFailure(p, 0, SECOND, done), done + 2_000_000) && LiveEarly(p, done, SECOND, done + 2_000_000)
  {
    var done := seconds * SECOND + 999_000_000;
    assert (done + SECOND) / SECOND == seconds + 1;
  }

  /** The failures have just reached a multiple of the threshold, a threshold below one acting as one. */
  predicate AtThreshold(p: Policy, run: seq<KeyOutcome>) {
    var t := if p.failThreshold > 1 then p.failThreshold else 1;
    run != [] && FailuresSinceSuccess(run) > 0 && FailuresSinceSuccess(run) % t == 0
  }

  /**
   At the threshold, a key is not live until more than its provider's recover interval
   and more than the configured cooldown, each less one second, have passed since the
   last failure, and live once more than both have.
   */
  lemma RestsBothIntervals(p: Policy, run: seq<KeyOutcome>, now: Time)
    requires AtThreshold(p, run)
    ensures var last, until := run[|run| - 1], After(p, run).cooldown;
      && (now > (until + 62_135_596_800) * 1_000_000_000 ==>
           now > last.done + last.recover - 1_000_000_000 && now > last.done + p.cooldownSec * 1_000_000_000 - 1_000_000_000)
      && (now > last.done + last.recover && now > last.done + p.cooldownSec * 1_000_000_000 ==>
           now > (until + 62_135_596_800) * 1_000_000_000)
  {
    var last := run[|run| - 1];
    CooldownAtMultiples(p, run);
    RestIsCutShort(p, last.done, last.recover, now);
  }

  /** Short of the threshold, a key does not rest. */
  lemma NoRestBetween(p: Policy, run: seq<KeyOutcome>)
    requires !AtThreshold(p, run)
    ensures After(p, run).cooldown == 0
  {
    if run != [] {
      CooldownAtMultiples(p, run);
    }
  }
}
