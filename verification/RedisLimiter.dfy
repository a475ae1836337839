/**
 The Redis limiter: two counters for each key and clock minute, named by text
 and given 65 seconds to live on every increment, read and incremented in one
 script.  It refines the in-memory limiter.
 */
module RedisLimiter {
  import opened Clock
  import opened Limiter

  const TTL: nat := 65 * SECOND

  /** How long after its clock reading a call's script may still run: the client gives up after two seconds. */
  const LATENESS: nat := 2 * SECOND

  /** By how much a counter outlives the minute it was last counted in, at least. */
  const GRACE: nat := TTL - MINUTE

  datatype Counter = Counter(value: int, deadline: Time)

  type Counters = map<string, Counter>

  datatype Kind = Req | Tok

  function CounterName(prefix: string, key: string, minute: nat, kind: Kind): string {
    prefix + key + ":" + MinuteName(minute) + (if kind.Req? then ":req" else ":tok")
  }

  /** GET, with an absent or expired counter read as "0". */
  function Read(cs: Counters, name: string, at: Time): int {
    if name in cs && at < cs[name].deadline then cs[name].value else 0
  }

  /** INCRBY then EXPIRE, skipped when there is nothing to add. */
  function Bump(cs: Counters, name: string, delta: int, at: Time): Counters {
    if delta > 0 then cs[name := Counter(Read(cs, name, at) + delta, at + TTL)] else cs
  }

  predicate ScriptAdmits(prefix: string, cs: Counters, c: Call, at: Time) {
    var minute := MinuteOf(c.stamp);
    Fits(c, Read(cs, CounterName(prefix, c.key, minute, Req), at), Read(cs, CounterName(prefix, c.key, minute, Tok), at))
  }

  predicate RedisAdmits(prefix: string, cs: Counters, c: Call, at: Time) {
    Unlimited(c) || ScriptAdmits(prefix, cs, c, at)
  }

  function RedisAfter(prefix: string, cs: Counters, c: Call, at: Time): Counters {
    if Unlimited(c) || !ScriptAdmits(prefix, cs, c, at) then cs
    else
      var minute := MinuteOf(c.stamp);
      var counted := Bump(cs, CounterName(prefix, c.key, minute, Req), c.reqDelta, at);
      Bump(counted, CounterName(prefix, c.key, minute, Tok), c.tokDelta, at)
  }

  // ---- The limiter as an object ----

  class RedisLimiter {
    const keyPrefix: string
    var counters: Counters

    constructor (keyPrefix: string)
      ensures this.keyPrefix == keyPrefix && counters == map[]
    {
      this.keyPrefix := keyPrefix;
      counters := map[];
    }

    /** The Lua script, run by the server at the instant `at`. */
    method RunScript(reqKey: string, tokKey: string, reqDelta: int, tokDelta: int, maxReq: int, maxTok: int, at: Time)
      returns (verdict: int)
      requires reqKey != tokKey
      modifies this
      ensures verdict == 0 || verdict == 1
      ensures verdict == 1 <==> Fits(Call(at, "", reqDelta, tokDelta, maxReq, maxTok),
                                     Read(old(counters), reqKey, at), Read(old(counters), tokKey, at))
      ensures verdict == 0 ==> counters == old(counters)
      ensures verdict == 1 ==> counters == Bump(Bump(old(counters), reqKey, reqDelta, at), tokKey, tokDelta, at)
      ensures verdict == 1 && reqDelta > 0 ==>
        reqKey in counters && counters[reqKey] == Counter(Read(old(counters), reqKey, at) + reqDelta, at + 65 * SECOND)
      ensures verdict == 1 && tokDelta > 0 ==>
        tokKey in counters && counters[tokKey] == Counter(Read(old(counters), tokKey, at) + tokDelta, at + 65 * SECOND)
    {
      var reqCur := Read(counters, reqKey, at);
      var tokCur := Read(counters, tokKey, at);
      if maxReq > 0 && reqCur + reqDelta > maxReq {
        return 0;
      }
      if maxTok > 0 && tokCur + tokDelta > maxTok {
        return 0;
      }
      if reqDelta > 0 {
        counters := counters[reqKey := Counter(reqCur + reqDelta, at + TTL)];
      }
      if tokDelta > 0 {
        counters := counters[tokKey := Counter(tokCur + tokDelta, at + TTL)];
      }
      return 1;
    }

    method Allow(now: Time, at: Time, key: string, reqDelta: int, tokDelta: int, maxReq: int, maxTok: int)
      returns (ok: bool)
      modifies this
      ensures ok == RedisAdmits(keyPrefix, old(counters), Call(now, key, reqDelta, tokDelta, maxReq, maxTok), at)
      ensures counters == RedisAfter(keyPrefix, old(counters), Call(now, key, reqDelta, tokDelta, maxReq, maxTok), at)
    {
      if maxReq <= 0 && maxTok <= 0 {
        return true;
      }
      var base := keyPrefix + key + ":" + MinuteName(MinuteOf(now));
      CounterNameInjective(keyPrefix, key, MinuteOf(now), Req, key, MinuteOf(now), Tok);
      var verdict := RunScript(base + ":req", base + ":tok", reqDelta, tokDelta, maxReq, maxTok, at);
      return verdict == 1;
    }
  }

  // ---- Counter names ----

  lemma ColonSplits(a: string, b: string, x: string, y: string)
    requires a + ":" + x == b + ":" + y
    requires AllDigits(x) && AllDigits(y)
    ensures a == b && x == y
  {
    var s, t := a + ":" + x, b + ":" + y;
    assert forall i :: |a| < i < |s| ==> s[i] == x[i - |a| - 1];
    assert forall i :: |b| < i < |t| ==> t[i] == y[i - |b| - 1];
    assert s[|a|] == ':' && t[|b|] == ':';
    assert s[..|a|] == a && t[..|b|] == b;
    assert s[|a| + 1..] == x && t[|b| + 1..] == y;
  }

  /** A counter name tells the limiter key, the minute and the kind of counter. */
  lemma CounterNameInjective(prefix: string, k1: string, m1: nat, c1: Kind, k2: string, m2: nat, c2: Kind)
    ensures CounterName(prefix, k1, m1, c1) == CounterName(prefix, k2, m2, c2) ==> k1 == k2 && m1 == m2 && c1 == c2
  {
    var n1, n2 := CounterName(prefix, k1, m1, c1), CounterName(prefix, k2, m2, c2);
    var b1, b2 := prefix + k1 + ":" + MinuteName(m1), prefix + k2 + ":" + MinuteName(m2);
    assert n1[|n1| - 4..] == if c1.Req? then ":req" else ":tok";
    assert n2[|n2| - 4..] == if c2.Req? then ":req" else ":tok";
    assert n1[..|n1| - 4] == b1 && n2[..|n2| - 4] == b2;
    assert ":req"[1] != ":tok"[1];
    if n1 == n2 {
      MinuteNameValue(m1);
      MinuteNameValue(m2);
      ColonSplits(prefix + k1, prefix + k2, MinuteName(m1), MinuteName(m2));
      assert (prefix + k1)[|prefix|..] == k1 && (prefix + k2)[|prefix|..] == k2;
      MinuteNameInjective(m1, m2);
    }
  }

  // ---- Redis refines memory ----

  /** What the memory limiter holds for a key in a minute. */
  function Held(w: Windows, key: string, minute: nat, kind: Kind): int {
    if key in w && w[key].start == StartOf(minute) then (if kind.Req? then w[key].req else w[key].tok) else 0
  }

  function Stored(cs: Counters, name: string): int {
    if name in cs then cs[name].value else 0
  }

  /**
   The simulation relation once the clock has reached `minute`: from this minute
   on, every stored counter holds what the key's window holds, and will live
   for 65 seconds from the start of its minute.
   */
  ghost predicate Agrees(prefix: string, w: Windows, cs: Counters, minute: nat) {
    && (forall key, m: nat, kind :: minute <= m ==>
         && Stored(cs, CounterName(prefix, key, m, kind)) == Held(w, key, m, kind)
         && (CounterName(prefix, key, m, kind) in cs ==> StartOf(m) + TTL <= cs[CounterName(prefix, key, m, kind)].deadline))
    && (forall key :: key in w ==> w[key].start <= StartOf(minute) && w[key].start % MINUTE == 0)
  }

  /** The script runs at most `late` after the call's clock reading. */
  predicate Timely(c: Call, at: Time, late: nat) {
    c.stamp <= at <= c.stamp + late
  }

  /** No counter a call may read has expired: 65 seconds outlast the minute and a lateness within the grace. */
  lemma NothingExpiresInUse(prefix: string, w: Windows, cs: Counters, c: Call, at: Time, kind: Kind)
    requires Agrees(prefix, w, cs, MinuteOf(c.stamp)) && Timely(c, at, GRACE)
    ensures var name := CounterName(prefix, c.key, MinuteOf(c.stamp), kind);
            Read(cs, name, at) == Stored(cs, name) == Held(w, c.key, MinuteOf(c.stamp), kind)
  {
    TruncateIsStart(c.stamp);
    var name := CounterName(prefix, c.key, MinuteOf(c.stamp), kind);
    assert name in cs ==> at < cs[name].deadline;
  }

  lemma AgreesLater(prefix: string, w: Windows, cs: Counters, earlier: nat, later: nat)
    requires Agrees(prefix, w, cs, earlier) && earlier <= later
    ensures Agrees(prefix, w, cs, later)
  {
    assert StartOf(earlier) <= StartOf(later);
  }

  lemma SameVerdict(prefix: string, w: Windows, cs: Counters, c: Call, at: Time)
    requires Agrees(prefix, w, cs, MinuteOf(c.stamp)) && Timely(c, at, GRACE)
    ensures RedisAdmits(prefix, cs, c, at) == Admits(w, c)
    ensures !Unlimited(c) ==> CurrentWindow(w, c).start == StartOf(MinuteOf(c.stamp))
                              && CurrentWindow(w, c).req == Held(w, c.key, MinuteOf(c.stamp), Req)
                              && CurrentWindow(w, c).tok == Held(w, c.key, MinuteOf(c.stamp), Tok)
  {
    TruncateIsStart(c.stamp);
    NothingExpiresInUse(prefix, w, cs, c, at, Req);
    NothingExpiresInUse(prefix, w, cs, c, at, Tok);
  }

  predicate NonNegative(c: Call) { c.reqDelta >= 0 && c.tokDelta >= 0 }

  /** What one admitted call leaves in a counter. */
  lemma CounterAfter(prefix: string, w: Windows, cs: Counters, c: Call, at: Time, key: string, m: nat, kind: Kind)
    requires Agrees(prefix, w, cs, MinuteOf(c.stamp)) && Timely(c, at, GRACE) && NonNegative(c)
    requires !Unlimited(c) && Admits(w, c)
    ensures var name, cs' := CounterName(prefix, key, m, kind), RedisAfter(prefix, cs, c, at);
            if key == c.key && m == MinuteOf(c.stamp) then
              && Stored(cs', name) == Held(w, key, m, kind) + (if kind.Req? then c.reqDelta else c.tokDelta)
              && (name in cs' && name !in cs ==> at + TTL <= cs'[name].deadline)
              && (name in cs' && name in cs ==> cs'[name].deadline == cs[name].deadline || at + TTL <= cs'[name].deadline)
            else (name in cs' <==> name in cs) && (name in cs ==> cs'[name] == cs[name])
  {
    var minute := MinuteOf(c.stamp);
    SameVerdict(prefix, w, cs, c, at);
    NothingExpiresInUse(prefix, w, cs, c, at, Req);
    NothingExpiresInUse(prefix, w, cs, c, at, Tok);
    CounterNameInjective(prefix, c.key, minute, Req, c.key, minute, Tok);
    CounterNameInjective(prefix, key, m, kind, c.key, minute, Req);
    CounterNameInjective(prefix, key, m, kind, c.key, minute, Tok);
  }

  lemma WindowsAfter(w: Windows, c: Call, key: string, m: nat, kind: Kind)
    requires !Unlimited(c) && CurrentWindow(w, c).start == StartOf(MinuteOf(c.stamp))
    requires CurrentWindow(w, c).req == Held(w, c.key, MinuteOf(c.stamp), Req)
    requires CurrentWindow(w, c).tok == Held(w, c.key, MinuteOf(c.stamp), Tok)
    requires MinuteOf(c.stamp) <= m
    requires c.key in w ==> w[c.key].start <= StartOf(MinuteOf(c.stamp))
    ensures Held(After(w, c), key, m, kind) == Held(w, key, m, kind)
              + (if key == c.key && m == MinuteOf(c.stamp) && Admits(w, c) then (if kind.Req? then c.reqDelta else c.tokDelta) else 0)
  {
    assert m != MinuteOf(c.stamp) ==> StartOf(MinuteOf(c.stamp)) < StartOf(m);
  }

  /** One call keeps the relation. */
  lemma StepAgrees(prefix: string, w: Windows, cs: Counters, c: Call, at: Time)
    requires Agrees(prefix, w, cs, MinuteOf(c.stamp)) && Timely(c, at, GRACE) && NonNegative(c)
    ensures Agrees(prefix, After(w, c), RedisAfter(prefix, cs, c, at), MinuteOf(c.stamp))
  {
    SameVerdict(prefix, w, cs, c, at);
    if !Unlimited(c) {
      var minute := MinuteOf(c.stamp);
      var w', cs' := After(w, c), RedisAfter(prefix, cs, c, at);
      TruncateIsStart(c.stamp);
      forall key, m: nat, kind | minute <= m
        ensures Stored(cs', CounterName(prefix, key, m, kind)) == Held(w', key, m, kind)
        ensures CounterName(prefix, key, m, kind) in cs' ==> StartOf(m) + TTL <= cs'[CounterName(prefix, key, m, kind)].deadline
      {
        WindowsAfter(w, c, key, m, kind);
        if Admits(w, c) {
          CounterAfter(prefix, w, cs, c, at, key, m, kind);
        }
      }
    }
  }

  /** A script run: the call and the instant the server runs it. */
  datatype ScriptRun = ScriptRun(call: Call, at: Time)

  function CallsOf(runs: seq<ScriptRun>): seq<Call> {
    if runs == [] then [] else CallsOf(runs[..|runs| - 1]) + [runs[|runs| - 1].call]
  }

  function RedisRun(prefix: string, runs: seq<ScriptRun>): Counters {
    if runs == [] then map[]
    else
      var last := runs[|runs| - 1];
      RedisAfter(prefix, RedisRun(prefix, runs[..|runs| - 1]), last.call, last.at)
  }

  /** What the refinement assumes of a run: minutes in order, no script too late, nothing given back. */
  predicate Orderly(runs: seq<ScriptRun>, late: nat) {
    && (forall i, j :: 0 <= i < j < |runs| ==> MinuteOf(runs[i].call.stamp) <= MinuteOf(runs[j].call.stamp))
    && (forall i :: 0 <= i < |runs| ==> Timely(runs[i].call, runs[i].at, late) && NonNegative(runs[i].call))
  }

  lemma {:induction false} RunAgrees(prefix: string, runs: seq<ScriptRun>, minute: nat)
    requires Orderly(runs, GRACE)
    requires forall i :: 0 <= i < |runs| ==> MinuteOf(runs[i].call.stamp) <= minute
    ensures Agrees(prefix, Run(CallsOf(runs)), RedisRun(prefix, runs), minute)
  {
    if runs != [] {
      var n := |runs| - 1;
      var before, last := runs[..n], runs[n];
      RunAgrees(prefix, before, MinuteOf(last.call.stamp));
      StepAgrees(prefix, Run(CallsOf(before)), RedisRun(prefix, before), last.call, last.at);
      assert CallsOf(runs)[..|CallsOf(runs)| - 1] == CallsOf(before);
      AgreesLater(prefix, Run(CallsOf(runs)), RedisRun(prefix, runs), MinuteOf(last.call.stamp), minute);
    }
  }

  /** After the runs, the two limiters give the next call the same verdict. */
  predicate SameNext(prefix: string, runs: seq<ScriptRun>, next: ScriptRun) {
    RedisAdmits(prefix, RedisRun(prefix, runs), next.call, next.at) == Admits(Run(CallsOf(runs)), next.call)
  }

  /** Redis refines memory: after any orderly run, the next call gets the same verdict from both limiters. */
  lemma RedisRefinesMemory(prefix: string, runs: seq<ScriptRun>, next: ScriptRun, late: nat)
    requires Orderly(runs + [next], late) && late <= GRACE
    ensures SameNext(prefix, runs, next)
  {
    var all := runs + [next];
    assert all[|runs|] == next && forall i :: 0 <= i < |runs| ==> all[i] == runs[i];
    RunAgrees(prefix, runs, MinuteOf(next.call.stamp));
    SameVerdict(prefix, Run(CallsOf(runs)), RedisRun(prefix, runs), next.call, next.at);
  }

  // ---- What it admits ----

  /** What a script run adds to the total of `key` over the stamps in [lo, hi), by the Redis limiter's own verdict. */
  function RedisShare(prefix: string, meter: Meter, cs: Counters, r: ScriptRun, key: string, lo: Time, hi: Time): int {
    if r.call.key == key && (r.call.maxReq > 0 || r.call.maxTok > 0) && lo <= r.call.stamp < hi && RedisAdmits(prefix, cs, r.call, r.at)
    then meter.Delta(r.call) else 0
  }

  function RedisAdmitted(prefix: string, meter: Meter, runs: seq<ScriptRun>, key: string, lo: Time, hi: Time): int {
    if runs == [] then 0
    else
      var before := runs[..|runs| - 1];
      RedisAdmitted(prefix, meter, before, key, lo, hi)
      + RedisShare(prefix, meter, RedisRun(prefix, before), runs[|runs| - 1], key, lo, hi)
  }

  lemma SameShare(prefix: string, meter: Meter, before: seq<ScriptRun>, r: ScriptRun, key: string, lo: Time, hi: Time, late: nat)
    requires Orderly(before + [r], late) && late <= GRACE
    ensures RedisShare(prefix, meter, RedisRun(prefix, before), r, key, lo, hi)
         == Share(meter, Run(CallsOf(before)), r.call, key, lo, hi)
  {
    RedisRefinesMemory(prefix, before, r, late);
  }

  lemma OrderlyBefore(before: seq<ScriptRun>, r: ScriptRun, late: nat)
    requires Orderly(before + [r], late)
    ensures Orderly(before, late)
  {
    assert forall i :: 0 <= i < |before| ==> (before + [r])[i] == before[i];
  }

  /** Over an orderly run both limiters admit the same amounts. */
  lemma {:induction false} AdmitsTheSame(prefix: string, meter: Meter, runs: seq<ScriptRun>, key: string, lo: Time, hi: Time, late: nat)
    requires Orderly(runs, late) && late <= GRACE
    ensures RedisAdmitted(prefix, meter, runs, key, lo, hi) == Admitted(meter, CallsOf(runs), key, lo, hi)
  {
    if runs != [] {
      var before, r := runs[..|runs| - 1], runs[|runs| - 1];
      assert before + [r] == runs;
      OrderlyBefore(before, r, late);
      AdmitsTheSame(prefix, meter, before, key, lo, hi, late);
      SameShare(prefix, meter, before, r, key, lo, hi, late);
      AdmittedSnoc(meter, CallsOf(before), r.call, key, lo, hi);
    }
  }

  lemma {:induction false} CallsOfAt(runs: seq<ScriptRun>)
    ensures |CallsOf(runs)| == |runs| && forall i :: 0 <= i < |runs| ==> CallsOf(runs)[i] == runs[i].call
  {
    if runs != [] {
      CallsOfAt(runs[..|runs| - 1]);
    }
  }

  /** The stamps come in order, not only their minutes. */
  predicate StampsInOrder(runs: seq<ScriptRun>) {
    forall i, j :: 0 <= i < j < |runs| ==> runs[i].call.stamp <= runs[j].call.stamp
  }

  /**
   The Redis limiter bounds what it admits as the memory limiter does: at most `cap`
   in any clock minute, and twice that in any sixty seconds.
   */
  lemma RedisBounds(prefix: string, meter: Meter, runs: seq<ScriptRun>, key: string, cap: nat, minute: nat, from: Time, late: nat)
    requires Orderly(runs, late) && late <= GRACE && StampsInOrder(runs) && Capped(meter, CallsOf(runs), key, cap)
    ensures RedisAdmitted(prefix, meter, runs, key, StartOf(minute), StartOf(minute + 1)) <= cap
    ensures RedisAdmitted(prefix, meter, runs, key, from, from + MINUTE) <= 2 * cap
  {
    CallsOfAt(runs);
    AdmitsTheSame(prefix, meter, runs, key, StartOf(minute), StartOf(minute + 1), late);
    AdmitsTheSame(prefix, meter, runs, key, from, from + MINUTE, late);
    MinuteBound(meter, CallsOf(runs), key, cap, minute);
    SpanBound(meter, CallsOf(runs), key, cap, from);
  }

  /** The same by the Redis limiter's own verdicts. */
  predicate RedisRoomFrom(prefix: string, meter: Meter, runs: seq<ScriptRun>, c: Call, lo: Time) {
    meter.Limit(c) > 0 ==>
      RedisAdmitted(prefix, meter, runs, c.key, lo, lo + MINUTE) + meter.Delta(c) <= meter.Limit(c)
  }

  predicate RedisHasRoom(prefix: string, meter: Meter, runs: seq<ScriptRun>, c: Call) {
    RedisRoomFrom(prefix, meter, runs, c, Truncate(c.stamp))
  }

  lemma SameRoom(prefix: string, meter: Meter, runs: seq<ScriptRun>, c: Call, lo: Time, late: nat)
    requires Orderly(runs, late) && late <= GRACE
    ensures RedisRoomFrom(prefix, meter, runs, c, lo) <==> RoomFrom(meter, CallsOf(runs), c, lo)
  {
    AdmitsTheSame(prefix, meter, runs, c.key, lo, lo + MINUTE, late);
  }

  lemma CallsInOrder(runs: seq<ScriptRun>, next: ScriptRun)
    requires StampsInOrder(runs + [next])
    ensures NonDecreasing(CallsOf(runs) + [next.call])
  {
    CallsOfAt(runs);
    var all := runs + [next];
    assert forall i :: 0 <= i <= |runs| ==> (CallsOf(runs) + [next.call])[i] == all[i].call;
  }

  lemma SameRoomSameVerdict(prefix: string, runs: seq<ScriptRun>, next: ScriptRun, lo: Time, late: nat)
    requires Orderly(runs + [next], late) && late <= GRACE
    requires Admits(Run(CallsOf(runs)), next.call)
        <==> RoomFrom(Requests, CallsOf(runs), next.call, lo) && RoomFrom(Tokens, CallsOf(runs), next.call, lo)
    ensures RedisAdmits(prefix, RedisRun(prefix, runs), next.call, next.at)
       <==> RedisRoomFrom(prefix, Requests, runs, next.call, lo) && RedisRoomFrom(prefix, Tokens, runs, next.call, lo)
  {
    OrderlyBefore(runs, next, late);
    SameRoom(prefix, Requests, runs, next.call, lo, late);
    SameRoom(prefix, Tokens, runs, next.call, lo, late);
    RedisRefinesMemory(prefix, runs, next, late);
  }

  /** The Redis limiter lets a call through exactly when what the clock minute has admitted leaves room for it. */
  lemma RedisAdmitsExactlyWithRoom(prefix: string, runs: seq<ScriptRun>, next: ScriptRun, late: nat)
    requires Orderly(runs + [next], late) && late <= 5_000_000_000 && StampsInOrder(runs + [next])
    ensures RedisAdmits(prefix, RedisRun(prefix, runs), next.call, next.at)
       <==> RedisHasRoom(prefix, Requests, runs, next.call) && RedisHasRoom(prefix, Tokens, runs, next.call)
  {
    CallsInOrder(runs, next);
    AdmittedExactlyWithRoom(CallsOf(runs), next.call);
    SameRoomSameVerdict(prefix, runs, next, Truncate(next.call.stamp), late);
  }

  // ---- What the refinement needs ----

  lemma OneRun(prefix: string, r: ScriptRun)
    ensures RedisRun(prefix, [r]) == RedisAfter(prefix, map[], r.call, r.at)
    ensures Run(CallsOf([r])) == After(map[], r.call)
  {
    assert [r][..0] == [];
    assert CallsOf([r]) == [r.call] && [r.call][..0] == [];
  }

  /** One request against a limit of one. */
  function Single(key: string, stamp: Time): Call { Call(stamp, key, 1, 0, 1, 0) }

  /** A single request, run at once, fills its minute on both sides. */
  lemma AfterSingle(prefix: string, key: string, stamp: Time)
    ensures var name := CounterName(prefix, key, MinuteOf(stamp), Req);
            RedisRun(prefix, [ScriptRun(Single(key, stamp), stamp)]) == map[name := Counter(1, stamp + TTL)]
    ensures Run(CallsOf([ScriptRun(Single(key, stamp), stamp)])) == map[key := Window(Truncate(stamp), 1, 0)]
  {
    OneRun(prefix, ScriptRun(Single(key, stamp), stamp));
  }

  /** In minutes out of order the limiters part: the earlier minute still has room in Redis, but not in memory. */
  lemma DisagreeOutOfOrder(prefix: string, key: string, a: Time, b: Time)
    requires MinuteOf(b) < MinuteOf(a)
    ensures !SameNext(prefix, [ScriptRun(Single(key, a), a)], ScriptRun(Single(key, b), b))
  {
    AfterSingle(prefix, key, a);
    TruncateIsStart(a);
    TruncateIsStart(b);
    assert StartOf(MinuteOf(b)) < StartOf(MinuteOf(a));
    CounterNameInjective(prefix, key, MinuteOf(b), Req, key, MinuteOf(a), Req);
    CounterNameInjective(prefix, key, MinuteOf(b), Tok, key, MinuteOf(a), Req);
  }

  /** Whatever two timely calls with these stamps ask for, the second gets the same verdict from both limiters. */
  ghost predicate PairsAgree(prefix: string, a: Time, b: Time) {
    forall first: ScriptRun, next: ScriptRun ::
      first.call.stamp == a && next.call.stamp == b && NonNegative(first.call) && NonNegative(next.call)
      && Timely(first.call, first.at, LATENESS) && Timely(next.call, next.at, LATENESS)
      ==> SameNext(prefix, [first], next)
  }

  /** Exactly which pairs of stamps the limiters agree on: those whose minutes are in order. */
  lemma PairsAgreeExactlyInOrder(prefix: string, a: Time, b: Time)
    ensures PairsAgree(prefix, a, b) <==> MinuteOf(a) <= MinuteOf(b)
  {
    if MinuteOf(a) <= MinuteOf(b) {
      forall first: ScriptRun, next: ScriptRun |
        first.call.stamp == a && next.call.stamp == b && NonNegative(first.call) && NonNegative(next.call)
        && Timely(first.call, first.at, LATENESS) && Timely(next.call, next.at, LATENESS)
        ensures SameNext(prefix, [first], next)
      {
        RedisRefinesMemory(prefix, [first], next, LATENESS);
      }
    } else {
      var first, next := ScriptRun(Single("", a), a), ScriptRun(Single("", b), b);
      DisagreeOutOfOrder(prefix, "", a, b);
      assert !SameNext(prefix, [first], next);
    }
  }

  /** A script later than the grace meets an expired counter: the minute's first call has been forgotten. */
  lemma DisagreeWhenLate(prefix: string, key: string)
    ensures !SameNext(prefix, [ScriptRun(Single(key, 0), 0)], ScriptRun(Single(key, MINUTE - 1), MINUTE - 1 + GRACE + 1))
  {
    AfterSingle(prefix, key, 0);
    assert MinuteOf(0) == 0 && MinuteOf(MINUTE - 1) == 0 && Truncate(0) == 0 && Truncate(MINUTE - 1) == 0;
    CounterNameInjective(prefix, key, 0, Req, key, 0, Tok);
  }

  /** Redis refines memory on every run whose scripts are at most `late` after their stamps. */
  ghost predicate RefinesWithin(prefix: string, late: nat) {
    forall runs, next :: Orderly(runs + [next], late) ==> SameNext(prefix, runs, next)
  }

  lemma LatePairIsOrderly(late: nat)
    requires late > GRACE
    ensures Orderly([ScriptRun(Single("", 0), 0)] + [ScriptRun(Single("", MINUTE - 1), MINUTE - 1 + GRACE + 1)], late)
  {
  }

  /** Exactly how late a script may run: five seconds, by which a counter outlives its minute. */
  lemma RefinesExactlyWithinGrace(prefix: string, late: nat)
    ensures RefinesWithin(prefix, late) <==> late <= GRACE
  {
    if late <= GRACE {
      forall runs, next | Orderly(runs + [next], late) ensures SameNext(prefix, runs, next) {
        RedisRefinesMemory(prefix, runs, next, late);
      }
    } else {
      var first, next := ScriptRun(Single("", 0), 0), ScriptRun(Single("", MINUTE - 1), MINUTE - 1 + GRACE + 1);
      DisagreeWhenLate(prefix, "");
      LatePairIsOrderly(late);
      assert !SameNext(prefix, [first], next);
    }
  }

  // ---- One Redis limiter for users and channels ----

  const USER := "user:"
  const CHANNEL := "provider:"

  predicate UserRun(r: ScriptRun) { USER <= r.call.key }

  predicate ChannelRun(r: ScriptRun) { CHANNEL <= r.call.key }

  /** The runs of one sort, in order. */
  function Only(runs: seq<ScriptRun>, users: bool): seq<ScriptRun> {
    if runs == [] then []
    else
      var last := runs[|runs| - 1];
      Only(runs[..|runs| - 1], users) + (if UserRun(last) == users then [last] else [])
  }

  lemma UserKeysAreNotChannelKeys(prefix: string, k1: string, m1: nat, c1: Kind, k2: string, m2: nat, c2: Kind)
    requires USER <= k1 && CHANNEL <= k2
    ensures k1 != k2 && CounterName(prefix, k1, m1, c1) != CounterName(prefix, k2, m2, c2)
  {
    assert k1[0] == 'u' && k2[0] == 'p';
    CounterNameInjective(prefix, k1, m1, c1, k2, m2, c2);
  }

  predicate SameCounter(shared: Counters, own: Counters, name: string) {
    (name in shared <==> name in own) && (name in shared ==> shared[name] == own[name])
  }

  /** Two counter tables that hold the same counters for every key of one sort. */
  ghost predicate SameFor(prefix: string, shared: Counters, own: Counters, users: bool) {
    forall key, m: nat, kind :: (USER <= key) == users && (USER <= key || CHANNEL <= key) ==>
      SameCounter(shared, own, CounterName(prefix, key, m, kind))
  }

  /** A call of the sort that tables of its own see changes both tables alike. */
  lemma OwnStep(prefix: string, shared: Counters, own: Counters, r: ScriptRun, name: string)
    requires var c, minute := r.call, MinuteOf(r.call.stamp);
      && SameCounter(shared, own, CounterName(prefix, c.key, minute, Req))
      && SameCounter(shared, own, CounterName(prefix, c.key, minute, Tok))
    requires SameCounter(shared, own, name)
    ensures RedisAdmits(prefix, shared, r.call, r.at) == RedisAdmits(prefix, own, r.call, r.at)
    ensures SameCounter(RedisAfter(prefix, shared, r.call, r.at), RedisAfter(prefix, own, r.call, r.at), name)
  {
  }

  /** A call leaves every counter but its own two alone. */
  lemma OtherCounterStays(prefix: string, cs: Counters, r: ScriptRun, key: string, m: nat, kind: Kind)
    requires key != r.call.key
    ensures SameCounter(cs, RedisAfter(prefix, cs, r.call, r.at), CounterName(prefix, key, m, kind))
  {
    CounterNameInjective(prefix, key, m, kind, r.call.key, MinuteOf(r.call.stamp), Req);
    CounterNameInjective(prefix, key, m, kind, r.call.key, MinuteOf(r.call.stamp), Tok);
  }

  lemma SharedStep(prefix: string, shared: Counters, own: Counters, r: ScriptRun, users: bool)
    requires SameFor(prefix, shared, own, users) && (UserRun(r) || ChannelRun(r))
    ensures SameFor(prefix, RedisAfter(prefix, shared, r.call, r.at),
                    if UserRun(r) == users then RedisAfter(prefix, own, r.call, r.at) else own, users)
    ensures UserRun(r) == users ==> RedisAdmits(prefix, shared, r.call, r.at) == RedisAdmits(prefix, own, r.call, r.at)
  {
    var c, minute := r.call, MinuteOf(r.call.stamp);
    if UserRun(r) == users {
      OwnStep(prefix, shared, own, r, CounterName(prefix, c.key, minute, Req));
      forall key, m: nat, kind | (USER <= key) == users && (USER <= key || CHANNEL <= key)
        ensures SameCounter(RedisAfter(prefix, shared, c, r.at), RedisAfter(prefix, own, c, r.at), CounterName(prefix, key, m, kind))
      {
        OwnStep(prefix, shared, own, r, CounterName(prefix, key, m, kind));
      }
    } else {
      forall key, m: nat, kind | (USER <= key) == users && (USER <= key || CHANNEL <= key)
        ensures SameCounter(RedisAfter(prefix, shared, c, r.at), own, CounterName(prefix, key, m, kind))
      {
        OtherCounterStays(prefix, shared, r, key, m, kind);
      }
    }
  }

  lemma {:induction false} SharedRun(prefix: string, runs: seq<ScriptRun>, users: bool)
    requires forall i :: 0 <= i < |runs| ==> UserRun(runs[i]) || ChannelRun(runs[i])
    ensures SameFor(prefix, RedisRun(prefix, runs), RedisRun(prefix, Only(runs, users)), users)
  {
    if runs != [] {
      var before, last := runs[..|runs| - 1], runs[|runs| - 1];
      SharedRun(prefix, before, users);
      SharedStep(prefix, RedisRun(prefix, before), RedisRun(prefix, Only(before, users)), last, users);
      var own := Only(runs, users);
      if UserRun(last) == users {
        assert own[..|own| - 1] == Only(before, users);
      } else {
        assert own == Only(before, users);
      }
    }
  }

  /**
   Sharing is harmless: with one Redis limiter serving both sorts of key, every
   call gets the verdict it would get from a limiter of its own sort's calls alone.
   */
  lemma SharingIsHarmless(prefix: string, runs: seq<ScriptRun>, next: ScriptRun)
    requires forall i :: 0 <= i < |runs| ==> UserRun(runs[i]) || ChannelRun(runs[i])
    requires UserRun(next) || ChannelRun(next)
    ensures RedisAdmits(prefix, RedisRun(prefix, runs), next.call, next.at)
         == RedisAdmits(prefix, RedisRun(prefix, Only(runs, UserRun(next))), next.call, next.at)
  {
    SharedRun(prefix, runs, UserRun(next));
    SharedStep(prefix, RedisRun(prefix, runs), RedisRun(prefix, Only(runs, UserRun(next))), next, UserRun(next));
  }
}
