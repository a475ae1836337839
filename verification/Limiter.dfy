/**
 The in-memory rate limiter: one live minute window per key.

 `Admits` and `After` give the meaning of one call on the windows as values;
 MinuteLimiter is the limiter itself, with buckets shared by reference and
 updated in place.  The theorems are about whole call sequences.
 */
module Limiter {
  import opened Clock

  /** One call of Allow: `stamp` is the clock reading the call takes. */
  datatype Call = Call(stamp: Time, key: string, reqDelta: int, tokDelta: int, maxReq: int, maxTok: int)

  datatype Window = Window(start: Time, req: int, tok: int)

  type Windows = map<string, Window>

  /** A call without any positive limit is let through without being counted. */
  predicate Unlimited(c: Call) { c.maxReq <= 0 && c.maxTok <= 0 }

  predicate Fits(c: Call, req: int, tok: int) {
    && !(c.maxReq > 0 && req + c.reqDelta > c.maxReq)
    && !(c.maxTok > 0 && tok + c.tokDelta > c.maxTok)
  }

  /** The window a call is counted in: the key's own unless the clock has left it. */
  function CurrentWindow(w: Windows, c: Call): Window {
    if c.key in w && !(w[c.key].start < Truncate(c.stamp)) then w[c.key] else Window(Truncate(c.stamp), 0, 0)
  }

  predicate Admits(w: Windows, c: Call) {
    Unlimited(c) || Fits(c, CurrentWindow(w, c).req, CurrentWindow(w, c).tok)
  }

  function After(w: Windows, c: Call): Windows {
    if Unlimited(c) then w
    else
      var b := CurrentWindow(w, c);
      w[c.key := if Admits(w, c) then Window(b.start, b.req + c.reqDelta, b.tok + c.tokDelta) else b]
  }

  /** Moving the key's window on and charging it is one call. */
  lemma ChargedIsAfter(w: Windows, current: Windows, charged: Windows, c: Call, ok: bool)
    requires !Unlimited(c) && current == w[c.key := CurrentWindow(w, c)]
    requires var b := current[c.key];
      && ok == Fits(c, b.req, b.tok)
      && charged == current[c.key := if ok then Window(b.start, b.req + c.reqDelta, b.tok + c.tokDelta) else b]
    ensures ok == Admits(w, c) && charged == After(w, c)
  {
  }

  // ---- The limiter as an object ----

  class Bucket {
    const windowStart: Time
    var reqCount: int
    var tokenCount: int

    constructor (start: Time)
      ensures windowStart == start && reqCount == 0 && tokenCount == 0
    {
      windowStart := start;
      reqCount, tokenCount := 0, 0;
    }

    function View(): Window
      reads this
    {
      Window(windowStart, reqCount, tokenCount)
    }
  }

  class MinuteLimiter {
    var buckets: map<string, Bucket>
    /** The windows the buckets hold. */
    ghost var windows: Windows

    /** No two keys share a bucket, and the buckets hold the windows. */
    ghost predicate Valid()
      reads this, buckets.Values
    {
      && (forall j, k :: j in buckets && k in buckets && j != k ==> buckets[j] != buckets[k])
      && windows.Keys == buckets.Keys
      && forall k :: k in buckets ==> windows[k] == buckets[k].View()
    }

    constructor ()
      ensures Valid() && windows == map[] && buckets == map[]
    {
      buckets := map[];
      windows := map[];
    }

    /** The key's bucket, replaced by an empty one once the clock has left its minute. */
    method Current(now: Time, key: string)
      requires Valid()
      modifies this
      ensures Valid() && fresh(buckets.Values - old(buckets.Values))
      ensures buckets.Keys == old(buckets).Keys + {key}
      ensures forall k :: k in old(buckets) && k != key ==> buckets[k] == old(buckets)[k]
      ensures windows == old(windows)[key := if key in old(windows) && !(old(windows)[key].start < Truncate(now)) then old(windows)[key]
                                             else Window(Truncate(now), 0, 0)]
    {
      var minute := Truncate(now);
      if key !in buckets || buckets[key].windowStart < minute {
        var started := new Bucket(minute);
        buckets := buckets[key := started];
        windows := windows[key := Window(minute, 0, 0)];
      }
    }

    /** The two checks against the key's bucket, and the counting in place of a call that passes both. */
    method Charge(key: string, reqDelta: int, tokDelta: int, maxReq: int, maxTok: int) returns (ok: bool)
      requires Valid() && key in buckets
      modifies this`windows, buckets[key]
      ensures Valid()
      ensures var b := old(windows)[key];
        && ok == Fits(Call(0, key, reqDelta, tokDelta, maxReq, maxTok), b.req, b.tok)
        && windows == old(windows)[key := if ok then Window(b.start, b.req + reqDelta, b.tok + tokDelta) else b]
    {
      var b := buckets[key];
      if maxReq > 0 && b.reqCount + reqDelta > maxReq {
        return false;
      }
      if maxTok > 0 && b.tokenCount + tokDelta > maxTok {
        return false;
      }
      b.reqCount := b.reqCount + reqDelta;
      b.tokenCount := b.tokenCount + tokDelta;
      windows := windows[key := b.View()];
      return true;
    }

    method Allow(now: Time, key: string, reqDelta: int, tokDelta: int, maxReq: int, maxTok: int) returns (ok: bool)
      requires Valid()
      modifies this, buckets.Values
      ensures Valid() && fresh(buckets.Values - old(buckets.Values))
      ensures ok == Admits(old(windows), Call(now, key, reqDelta, tokDelta, maxReq, maxTok))
      ensures windows == After(old(windows), Call(now, key, reqDelta, tokDelta, maxReq, maxTok))
    {
      if maxReq <= 0 && maxTok <= 0 {
        return true;
      }
      Current(now, key);
      ghost var current := windows;
      assert buckets[key] in buckets.Values;
      ok := Charge(key, reqDelta, tokDelta, maxReq, maxTok);
      ChargedIsAfter(old(windows), current, windows, Call(now, key, reqDelta, tokDelta, maxReq, maxTok), ok);
    }
  }

  // ---- Call sequences ----

  /** The windows after a sequence of calls on an empty limiter. */
  function Run(calls: seq<Call>): Windows {
    if calls == [] then map[] else After(Run(calls[..|calls| - 1]), calls[|calls| - 1])
  }

  predicate NonDecreasing(calls: seq<Call>) {
    forall i, j :: 0 <= i < j < |calls| ==> calls[i].stamp <= calls[j].stamp
  }

  /** The two things a limiter counts. */
  datatype Meter = Requests | Tokens {
    function Delta(c: Call): int { if Requests? then c.reqDelta else c.tokDelta }
    function Limit(c: Call): int { if Requests? then c.maxReq else c.maxTok }
    function Count(w: Window): int { if Requests? then w.req else w.tok }
  }

  /** What a call adds to the total of `key` over the stamps in [lo, hi): its delta if it sets a limit and is let through. */
  function Share(meter: Meter, w: Windows, c: Call, key: string, lo: Time, hi: Time): int {
    if c.key == key && (c.maxReq > 0 || c.maxTok > 0) && lo <= c.stamp < hi && Admits(w, c) then meter.Delta(c) else 0
  }

  /** The total admitted and counted for `key` with stamps in [lo, hi). */
  function Admitted(meter: Meter, calls: seq<Call>, key: string, lo: Time, hi: Time): int {
    if calls == [] then 0
    else
      var before := calls[..|calls| - 1];
      Admitted(meter, before, key, lo, hi) + Share(meter, Run(before), calls[|calls| - 1], key, lo, hi)
  }

  lemma RunSnoc(calls: seq<Call>, c: Call)
    ensures Run(calls + [c]) == After(Run(calls), c)
  {
    assert (calls + [c])[..|calls|] == calls;
  }

  lemma AdmittedSnoc(meter: Meter, calls: seq<Call>, c: Call, key: string, lo: Time, hi: Time)
    ensures Admitted(meter, calls + [c], key, lo, hi)
         == Admitted(meter, calls, key, lo, hi) + Share(meter, Run(calls), c, key, lo, hi)
  {
    assert (calls + [c])[..|calls|] == calls;
  }

  /** The key's calls that are counted at all. */
  predicate CountedOn(calls: seq<Call>, i: nat, key: string)
    requires i < |calls|
  {
    calls[i].key == key && !Unlimited(calls[i])
  }

  lemma {:induction false} NothingAdmittedOutside(meter: Meter, calls: seq<Call>, key: string, lo: Time, hi: Time)
    requires forall i :: 0 <= i < |calls| && CountedOn(calls, i, key) ==> !(lo <= calls[i].stamp < hi)
    ensures Admitted(meter, calls, key, lo, hi) == 0
  {
    if calls != [] {
      var n := |calls| - 1;
      assert CountedOn(calls, n, key) ==> !(lo <= calls[n].stamp < hi);
      forall i | 0 <= i < n && CountedOn(calls[..n], i, key) ensures !(lo <= calls[..n][i].stamp < hi) {
        assert CountedOn(calls, i, key);
      }
      NothingAdmittedOutside(meter, calls[..n], key, lo, hi);
    }
  }

  lemma {:induction false} AdmittedSplits(meter: Meter, calls: seq<Call>, key: string, lo: Time, mid: Time, hi: Time)
    requires lo <= mid <= hi
    ensures Admitted(meter, calls, key, lo, hi) == Admitted(meter, calls, key, lo, mid) + Admitted(meter, calls, key, mid, hi)
  {
    if calls != [] {
      AdmittedSplits(meter, calls[..|calls| - 1], key, lo, mid, hi);
    }
  }

  /** A key's window is the minute of its last counted call; a key without one has had no such call. */
  lemma {:induction false} WindowIsLastMinute(calls: seq<Call>, key: string)
    requires NonDecreasing(calls)
    ensures key !in Run(calls) ==> forall i :: 0 <= i < |calls| ==> !CountedOn(calls, i, key)
    ensures key in Run(calls) ==>
      && (exists i :: 0 <= i < |calls| && CountedOn(calls, i, key) && Run(calls)[key].start == Truncate(calls[i].stamp))
      && (forall i :: 0 <= i < |calls| && CountedOn(calls, i, key) ==> Truncate(calls[i].stamp) <= Run(calls)[key].start)
  {
    if calls != [] {
      var n := |calls| - 1;
      var before, c := calls[..n], calls[n];
      WindowIsLastMinute(before, key);
      assert forall i :: 0 <= i < n ==> CountedOn(before, i, key) == CountedOn(calls, i, key);
      assert forall i :: 0 <= i < n ==> MinuteOf(calls[i].stamp) <= MinuteOf(c.stamp);
      if CountedOn(calls, n, key) {
        assert CurrentWindow(Run(before), c).start == Truncate(c.stamp);
      } else {
        assert key in Run(calls) <==> key in Run(before);
        assert key in Run(calls) ==> Run(calls)[key] == Run(before)[key];
      }
    }
  }

  /** A counted call adds its share to the count of the window it falls in. */
  lemma CountedStep(meter: Meter, w: Windows, c: Call, hi: Time)
    requires !Unlimited(c)
    requires CurrentWindow(w, c).start <= c.stamp < hi
    ensures var now := CurrentWindow(w, c);
      && c.key in After(w, c) && After(w, c)[c.key].start == now.start
      && meter.Count(After(w, c)[c.key]) == meter.Count(now) + Share(meter, w, c, c.key, now.start, hi)
  {
  }

  lemma OtherStep(meter: Meter, w: Windows, c: Call, key: string, lo: Time, hi: Time)
    requires c.key != key || Unlimited(c)
    ensures key in After(w, c) <==> key in w
    ensures key in w ==> After(w, c)[key] == w[key]
    ensures Share(meter, w, c, key, lo, hi) == 0
  {
  }

  /** Earlier calls come from no later minute. */
  lemma MinutesBefore(before: seq<Call>, c: Call)
    requires NonDecreasing(before + [c])
    ensures NonDecreasing(before)
    ensures forall i :: 0 <= i < |before| ==> before[i].stamp <= c.stamp && Truncate(before[i].stamp) <= Truncate(c.stamp)
  {
    var all := before + [c];
    assert all[|before|] == c;
    forall i | 0 <= i < |before| ensures before[i].stamp <= c.stamp && Truncate(before[i].stamp) <= Truncate(c.stamp) {
      assert all[i] == before[i];
      MinuteOfMonotone(before[i].stamp, c.stamp);
      TruncateIsStart(before[i].stamp);
      TruncateIsStart(c.stamp);
    }
    forall i, j | 0 <= i < j < |before| ensures before[i].stamp <= before[j].stamp {
      assert all[i].stamp <= all[j].stamp;
    }
  }

  /** The call's own window holds what was admitted before it since that window began. */
  lemma {:induction false} CountsBefore(meter: Meter, before: seq<Call>, c: Call, hi: Time)
    requires NonDecreasing(before + [c]) && CurrentWindow(Run(before), c).start + MINUTE <= hi
    ensures var now := CurrentWindow(Run(before), c);
            now.start <= c.stamp < now.start + MINUTE
    ensures var now := CurrentWindow(Run(before), c);
            meter.Count(now) == Admitted(meter, before, c.key, now.start, hi)
    decreases |before|, 1
  {
    MinutesBefore(before, c);
    WindowIsLastMinute(before, c.key);
    TruncateIsStart(c.stamp);
    if c.key in Run(before) && Run(before)[c.key].start == Truncate(c.stamp) {
      CountsSinceWindowBegan(meter, before, c.key, hi);
    } else {
      forall i | 0 <= i < |before| && CountedOn(before, i, c.key) ensures before[i].stamp < Truncate(c.stamp) {
        TruncateIsStart(before[i].stamp);
      }
      NothingAdmittedOutside(meter, before, c.key, Truncate(c.stamp), hi);
    }
  }

  /** Each bucket's counts are the deltas admitted since its window began. */
  lemma {:induction false} CountsSinceWindowBegan(meter: Meter, calls: seq<Call>, key: string, hi: Time)
    requires NonDecreasing(calls)
    requires key in Run(calls) && Run(calls)[key].start + MINUTE <= hi
    ensures meter.Count(Run(calls)[key]) == Admitted(meter, calls, key, Run(calls)[key].start, hi)
    decreases |calls|, 0
  {
    var n := |calls| - 1;
    var before, c := calls[..n], calls[n];
    assert calls == before + [c];
    if CountedOn(calls, n, key) {
      CountsBefore(meter, before, c, hi);
      CountedStep(meter, Run(before), c, hi);
    } else {
      OtherStep(meter, Run(before), c, key, Run(calls)[key].start, hi);
      CountsSinceWindowBegan(meter, before, key, hi);
    }
  }

  /** Every call on `key` counts a non-negative amount against a positive limit of at most `cap`. */
  predicate Capped(meter: Meter, calls: seq<Call>, key: string, cap: int) {
    forall i :: 0 <= i < |calls| && calls[i].key == key ==> 0 < meter.Limit(calls[i]) <= cap && meter.Delta(calls[i]) >= 0
  }

  /** What the sixty seconds from `lo` have admitted so far, and the call itself, are within the limit, if there is one. */
  predicate RoomFrom(meter: Meter, before: seq<Call>, c: Call, lo: Time) {
    meter.Limit(c) > 0 ==> Admitted(meter, before, c.key, lo, lo + MINUTE) + meter.Delta(c) <= meter.Limit(c)
  }

  /** The call's clock minute has room for it. */
  predicate HasRoom(meter: Meter, before: seq<Call>, c: Call) {
    RoomFrom(meter, before, c, Truncate(c.stamp))
  }

  /** The window a counted call meets holds what its minute has admitted so far. */
  lemma CurrentHoldsMinute(meter: Meter, before: seq<Call>, c: Call)
    requires NonDecreasing(before + [c]) && !Unlimited(c)
    ensures meter.Count(CurrentWindow(Run(before), c)) == Admitted(meter, before, c.key, Truncate(c.stamp), Truncate(c.stamp) + MINUTE)
  {
    MinutesBefore(before, c);
    WindowIsLastMinute(before, c.key);
    TruncateIsStart(c.stamp);
    CountsBefore(meter, before, c, Truncate(c.stamp) + MINUTE);
  }

  /**
   A call is let through exactly when, for requests and for tokens, either no limit
   is set or what the clock minute has admitted leaves room for it.
   */
  lemma AdmittedExactlyWithRoom(before: seq<Call>, c: Call)
    requires NonDecreasing(before + [c])
    ensures Admits(Run(before), c) <==> HasRoom(Requests, before, c) && HasRoom(Tokens, before, c)
  {
    if !Unlimited(c) {
      CurrentHoldsMinute(Requests, before, c);
      CurrentHoldsMinute(Tokens, before, c);
    }
  }

  /** What a call adds to a minute leaves the minute within the call's limit. */
  lemma ShareFits(meter: Meter, before: seq<Call>, c: Call, minute: nat)
    requires NonDecreasing(before + [c]) && meter.Limit(c) > 0
    requires Share(meter, Run(before), c, c.key, StartOf(minute), StartOf(minute + 1)) != 0
    ensures Admitted(meter, before, c.key, StartOf(minute), StartOf(minute + 1)) + meter.Delta(c) <= meter.Limit(c)
  {
    CurrentHoldsMinute(meter, before, c);
    TruncateIsStart(c.stamp);
    assert StartOf(minute) == Truncate(c.stamp) && StartOf(minute + 1) == Truncate(c.stamp) + MINUTE;
  }

  /** At most `cap` is admitted in any clock minute. */
  lemma {:induction false} MinuteBound(meter: Meter, calls: seq<Call>, key: string, cap: nat, minute: nat)
    requires NonDecreasing(calls) && Capped(meter, calls, key, cap)
    ensures 0 <= Admitted(meter, calls, key, StartOf(minute), StartOf(minute + 1)) <= cap
  {
    if calls != [] {
      var n := |calls| - 1;
      var before, c := calls[..n], calls[n];
      MinuteBound(meter, before, key, cap, minute);
      if Share(meter, Run(before), c, key, StartOf(minute), StartOf(minute + 1)) != 0 {
        assert calls == before + [c];
        ShareFits(meter, before, c, minute);
      }
    }
  }

  /** At most twice `cap` is admitted in any half-open span of sixty seconds. */
  lemma SpanBound(meter: Meter, calls: seq<Call>, key: string, cap: nat, from: Time)
    requires NonDecreasing(calls) && Capped(meter, calls, key, cap)
    ensures 0 <= Admitted(meter, calls, key, from, from + MINUTE) <= 2 * cap
  {
    var m := MinuteOf(from);
    var lo, mid, hi := StartOf(m), StartOf(m + 1), StartOf(m + 2);
    MinuteBound(meter, calls, key, cap, m);
    MinuteBound(meter, calls, key, cap, m + 1);
    assert lo <= from < mid <= from + MINUTE < hi + 1;
    AdmittedSplits(meter, calls, key, lo, from, mid);
    AdmittedSplits(meter, calls, key, mid, from + MINUTE, hi);
    AdmittedSplits(meter, calls, key, from, mid, from + MINUTE);
    AdmittedNonNegative(meter, calls, key, lo, from);
    AdmittedNonNegative(meter, calls, key, from, mid);
    AdmittedNonNegative(meter, calls, key, mid, from + MINUTE);
    AdmittedNonNegative(meter, calls, key, from + MINUTE, hi);
  }

  lemma {:induction false} AdmittedNonNegative(meter: Meter, calls: seq<Call>, key: string, lo: Time, hi: Time)
    requires forall i :: 0 <= i < |calls| && calls[i].key == key ==> meter.Delta(calls[i]) >= 0
    ensures Admitted(meter, calls, key, lo, hi) >= 0
  {
    if calls != [] {
      AdmittedNonNegative(meter, calls[..|calls| - 1], key, lo, hi);
    }
  }

  predicate Reaches(meter: Meter, calls: seq<Call>, key: string, cap: nat, from: Time, total: int) {
    && NonDecreasing(calls) && Capped(meter, calls, key, cap)
    && Admitted(meter, calls, key, from, from + MINUTE) == total
  }

  /** A call that asks for the whole limit of both meters. */
  function FullCall(stamp: Time, key: string, cap: nat): Call { Call(stamp, key, cap, cap, cap, cap) }

  /**
   The factor two is reached in every span that starts inside a minute: a whole
   limit at its start, and another at the start of the next minute.
   */
  lemma SpanBoundIsTight(meter: Meter, from: Time, cap: nat, key: string)
    requires cap > 0 && from % MINUTE != 0
    ensures exists calls :: Reaches(meter, calls, key, cap, from, 2 * cap)
  {
    var next := StartOf(MinuteOf(from) + 1);
    var first, second := FullCall(from, key, cap), FullCall(next, key, cap);
    assert from < next < from + MINUTE && Truncate(next) == next;
    FirstFullCall(meter, first, key, cap, from);
    SecondFullCall(meter, first, second, key, cap, from);
    assert NonDecreasing([first, second]) && Capped(meter, [first, second], key, cap);
    assert Reaches(meter, [first, second], key, cap, from, 2 * cap);
  }

  lemma FirstFullCall(meter: Meter, first: Call, key: string, cap: nat, from: Time)
    requires cap > 0 && first == FullCall(from, key, cap)
    ensures Run([first]) == map[key := Window(Truncate(from), cap, cap)]
    ensures Admitted(meter, [first], key, from, from + MINUTE) == cap
  {
    assert [first][..0] == [];
  }

  lemma SecondFullCall(meter: Meter, first: Call, second: Call, key: string, cap: nat, from: Time)
    requires cap > 0 && second.stamp < from + MINUTE && from < second.stamp == Truncate(second.stamp)
    requires first == FullCall(from, key, cap) && second == FullCall(second.stamp, key, cap)
    requires Run([first]) == map[key := Window(Truncate(from), cap, cap)]
    requires Admitted(meter, [first], key, from, from + MINUTE) == cap
    ensures Admitted(meter, [first, second], key, from, from + MINUTE) == 2 * cap
  {
    assert [first] + [second] == [first, second];
    AdmittedSnoc(meter, [first], second, key, from, from + MINUTE);
    assert Admits(Run([first]), second);
  }

  /** No ordered, capped sequence gets more than one whole limit into the sixty seconds from `from`. */
  ghost predicate HoldsOneLimit(meter: Meter, key: string, cap: nat, from: Time) {
    forall calls :: NonDecreasing(calls) && Capped(meter, calls, key, cap) ==> Admitted(meter, calls, key, from, from + MINUTE) <= cap
  }

  /** Exactly which spans of sixty seconds hold one limit only: the clock minutes. */
  lemma OneLimitExactlyOnClockMinutes(meter: Meter, from: Time, cap: nat, key: string)
    requires cap > 0
    ensures HoldsOneLimit(meter, key, cap, from) <==> from % MINUTE == 0
  {
    if from % MINUTE == 0 {
      var minute := MinuteOf(from);
      assert StartOf(minute) == from && StartOf(minute + 1) == from + MINUTE;
      forall calls | NonDecreasing(calls) && Capped(meter, calls, key, cap)
        ensures Admitted(meter, calls, key, from, from + MINUTE) <= cap
      {
        MinuteBound(meter, calls, key, cap, minute);
      }
    } else {
      SpanBoundIsTight(meter, from, cap, key);
      var calls :| Reaches(meter, calls, key, cap, from, 2 * cap);
    }
  }
}
