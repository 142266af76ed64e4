/** The token bucket of A2A callers (src/a2a/limits.ts), over real numbers.

    Besides the usual bound, the limiter is characterised without mentioning its bucket: a call is
    accepted exactly when accepting it breaks the bound of no window that ends with it. */
module RateLimiter {
  import opened Options

  datatype Bucket = Bucket(tokens: real, updatedAt: real)
  datatype Limits = Limits(capacity: real, rate: real)

  function Min(x: real, y: real): real { if x <= y then x else y }

  function Gap(from: real, to: real): real { if to >= from then to - from else 0.0 }

  /** Tokens earned over a time. */
  function Earned(time: real, rate: real): real { time * rate }

  /** The tokens a caller has at a moment, before the call is answered. */
  function Level(l: Limits, b: Option<Bucket>, at: real): real {
    match b
    case None => l.capacity
    case Some(b) => Min(l.capacity, b.tokens + Earned(Gap(b.updatedAt, at), l.rate))
  }

  function After(l: Limits, b: Option<Bucket>, at: real): Bucket {
    var tokens := Level(l, b, at);
    Bucket(if tokens < 1.0 then tokens else tokens - 1.0, at)
  }

  class RateLimiter {
    var buckets: map<string, Bucket>
    const limits: Limits

    constructor (capacity: real, perMinute: real)
      ensures buckets == map[] && limits == Limits(capacity, perMinute / 60000.0)
    {
      buckets := map[];
      limits := Limits(capacity, perMinute / 60000.0);
    }

    method TryConsume(key: string, at: real) returns (ok: bool)
      modifies this
      ensures buckets == AfterCall(limits, old(buckets), Call(key, at))
      ensures ok == (Level(limits, Lookup(old(buckets), key), at) >= 1.0)
    {
      var elapsed := if key in buckets && at - buckets[key].updatedAt > 0.0 then at - buckets[key].updatedAt else 0.0;
      var tokens :=
        if key in buckets then Min(limits.capacity, buckets[key].tokens + Earned(elapsed, limits.rate))
        else limits.capacity;
      if tokens < 1.0 {
        buckets := buckets[key := Bucket(tokens, at)];
        return false;
      }
      buckets := buckets[key := Bucket(tokens - 1.0, at)];
      return true;
    }
  }

  // ---------- histories ----------

  datatype Call = Call(key: string, at: real)

  function Lookup(m: map<string, Bucket>, key: string): Option<Bucket> {
    if key in m then Some(m[key]) else None
  }

  function AfterCall(l: Limits, m: map<string, Bucket>, c: Call): map<string, Bucket> {
    m[c.key := After(l, Lookup(m, c.key), c.at)]
  }

  /** All buckets after a history of calls, the first call first. */
  function Buckets(l: Limits, h: seq<Call>): map<string, Bucket> {
    if h == [] then map[] else AfterCall(l, Buckets(l, h[..|h| - 1]), h[|h| - 1])
  }

  /** The moments of one caller's calls. */
  function TimesOf(h: seq<Call>, key: string): seq<real> {
    if h == [] then []
    else TimesOf(h[..|h| - 1], key) + if h[|h| - 1].key == key then [h[|h| - 1].at] else []
  }

  /** One caller's bucket after its own calls alone. */
  function BucketAt(l: Limits, ts: seq<real>): Option<Bucket> {
    if ts == [] then None else Some(After(l, BucketAt(l, ts[..|ts| - 1]), ts[|ts| - 1]))
  }

  /** What the limiter answers to call k of one caller. */
  function Accepted(l: Limits, ts: seq<real>, k: nat): bool
    requires k < |ts|
  {
    Level(l, BucketAt(l, ts[..k]), ts[k]) >= 1.0
  }

  /** Callers do not affect each other: a caller's bucket is that of its own calls. */
  lemma {:induction false} KeysIndependent(l: Limits, h: seq<Call>, key: string)
    ensures Lookup(Buckets(l, h), key) == BucketAt(l, TimesOf(h, key))
  {
    if h != [] {
      var n := |h| - 1;
      var ts := TimesOf(h[..n], key);
      KeysIndependent(l, h[..n], key);
      assert (ts + [h[n].at])[..|ts|] == ts && ts + [] == ts;
    }
  }

  // ---------- the characterisation ----------

  /** Accepted calls among i, i + 1, ..., k - 1. */
  function Count(l: Limits, ts: seq<real>, i: nat, k: nat): nat
    requires i <= k <= |ts|
    decreases k
  {
    if i == k then 0 else Count(l, ts, i, k - 1) + if Accepted(l, ts, k - 1) then 1 else 0
  }

  /** Time that passed from call i to call k, counting only steps forward. */
  function Elapsed(ts: seq<real>, i: nat, k: nat): real
    requires i <= k < |ts|
    decreases k
  {
    if i == k then 0.0 else Elapsed(ts, i, k - 1) + Gap(ts[k - 1], ts[k])
  }

  /** What a window from call i leaves for call k: the capacity and what was earned since, less what was accepted. */
  function Room(l: Limits, ts: seq<real>, i: nat, k: nat): real
    requires i <= k < |ts|
  {
    l.capacity + Earned(Elapsed(ts, i, k), l.rate) - Count(l, ts, i, k) as real
  }

  function LevelAt(l: Limits, ts: seq<real>, k: nat): real
    requires k < |ts|
  {
    Level(l, BucketAt(l, ts[..k]), ts[k])
  }

  lemma LevelStep(l: Limits, ts: seq<real>, k: nat)
    requires 0 < k < |ts|
    ensures LevelAt(l, ts, k) ==
            Min(l.capacity, LevelAt(l, ts, k - 1) - (if Accepted(l, ts, k - 1) then 1.0 else 0.0) +
                            Earned(Gap(ts[k - 1], ts[k]), l.rate))
  {
    assert ts[..k][..k - 1] == ts[..k - 1];
  }

  lemma Distribute(x: real, y: real, r: real)
    ensures Earned(x + y, r) == Earned(x, r) + Earned(y, r)
  {
  }

  lemma RoomStep(l: Limits, ts: seq<real>, i: nat, k: nat)
    requires i < k < |ts|
    ensures Room(l, ts, i, k) ==
            Room(l, ts, i, k - 1) - (if Accepted(l, ts, k - 1) then 1.0 else 0.0) +
            Earned(Gap(ts[k - 1], ts[k]), l.rate)
  {
    Distribute(Elapsed(ts, i, k - 1), Gap(ts[k - 1], ts[k]), l.rate);
  }

  /** The bucket never holds more than any window leaves. */
  lemma {:induction false} LevelBelowRoom(l: Limits, ts: seq<real>, i: nat, k: nat)
    requires i <= k < |ts|
    ensures LevelAt(l, ts, k) <= Room(l, ts, i, k)
    decreases k
  {
    if i < k {
      LevelBelowRoom(l, ts, i, k - 1);
      LevelStep(l, ts, k);
      RoomStep(l, ts, i, k);
    }
  }

  /** The bucket holds exactly what some window leaves: the one since it was last full. */
  lemma {:induction false} LevelIsSomeRoom(l: Limits, ts: seq<real>, k: nat) returns (i: nat)
    requires k < |ts|
    ensures i <= k && LevelAt(l, ts, k) == Room(l, ts, i, k)
    decreases k
  {
    if k == 0 {
      i := 0;
      assert ts[..0] == [];
    } else {
      i := LevelIsSomeRoom(l, ts, k - 1);
      LevelStep(l, ts, k);
      RoomStep(l, ts, i, k);
      if LevelAt(l, ts, k) == l.capacity {
        i := k;
      }
    }
  }

  /** A call is accepted exactly when every window ending with it has room for it. */
  lemma AcceptedIffEveryWindowHasRoom(l: Limits, ts: seq<real>, k: nat)
    requires k < |ts|
    ensures Accepted(l, ts, k) <==> forall i :: 0 <= i <= k ==> Room(l, ts, i, k) >= 1.0
  {
    forall i | 0 <= i <= k ensures LevelAt(l, ts, k) <= Room(l, ts, i, k) {
      LevelBelowRoom(l, ts, i, k);
    }
    var i := LevelIsSomeRoom(l, ts, k);
    assert LevelAt(l, ts, k) == Room(l, ts, i, k);
  }

  ghost predicate Sorted(ts: seq<real>) {
    forall i, j :: 0 <= i < j < |ts| ==> ts[i] <= ts[j]
  }

  lemma {:induction false} ElapsedForward(ts: seq<real>, i: nat, k: nat)
    requires i <= k < |ts|
    ensures Elapsed(ts, i, k) >= 0.0
    ensures Sorted(ts) ==> Elapsed(ts, i, k) == ts[k] - ts[i]
    decreases k
  {
    if i < k {
      ElapsedForward(ts, i, k - 1);
    }
  }

  lemma EarnedSame(x: real, y: real, r: real)
    requires x == y
    ensures Earned(x, r) == Earned(y, r)
  {
  }

  lemma NonNegative(x: real, r: real)
    requires x >= 0.0 && r >= 0.0
    ensures Earned(x, r) >= 0.0
  {
  }

  /** Between any two calls of one caller at most capacity + rate * elapsed are accepted, whatever the clock does. */
  lemma {:induction false} WindowBoundAnyClock(l: Limits, ts: seq<real>, i: nat, j: nat)
    requires i <= j < |ts| && l.capacity >= 0.0 && l.rate >= 0.0
    ensures Count(l, ts, i, j + 1) as real <= l.capacity + Earned(Elapsed(ts, i, j), l.rate)
    decreases j
  {
    ElapsedForward(ts, i, j);
    NonNegative(Elapsed(ts, i, j), l.rate);
    if Accepted(l, ts, j) {
      LevelBelowRoom(l, ts, i, j);
    } else if i < j {
      WindowBoundAnyClock(l, ts, i, j - 1);
      Distribute(Elapsed(ts, i, j - 1), Gap(ts[j - 1], ts[j]), l.rate);
      NonNegative(Gap(ts[j - 1], ts[j]), l.rate);
    }
  }

  /** With a clock that does not run backwards: accepts from call i through call j number at most
      capacity + rate * (t_j - t_i). */
  lemma WindowBound(l: Limits, ts: seq<real>, i: nat, j: nat)
    requires i <= j < |ts| && l.capacity >= 0.0 && l.rate >= 0.0 && Sorted(ts)
    ensures Count(l, ts, i, j + 1) as real <= l.capacity + Earned(ts[j] - ts[i], l.rate)
  {
    WindowBoundAnyClock(l, ts, i, j);
    ElapsedForward(ts, i, j);
    EarnedSame(Elapsed(ts, i, j), ts[j] - ts[i], l.rate);
  }

  // ---------- rejected calls leave no trace ----------

  /** Two buckets that hold the same at every moment from t on. */
  ghost predicate Alike(l: Limits, b: Option<Bucket>, c: Option<Bucket>, t: real) {
    forall at :: at >= t ==> Level(l, b, at) == Level(l, c, at)
  }

  lemma AfterAlike(l: Limits, b: Option<Bucket>, c: Option<Bucket>, t: real, at: real)
    requires Alike(l, b, c, t) && at >= t
    ensures After(l, b, at) == After(l, c, at)
  {
  }

  lemma RejectedIsRefill(l: Limits, b: Option<Bucket>, t: real)
    requires l.rate >= 0.0 && Level(l, b, t) < 1.0 && (b.Some? ==> b.value.updatedAt <= t)
    ensures Alike(l, Some(After(l, b, t)), b, t)
  {
    forall at | at >= t ensures Level(l, Some(After(l, b, t)), at) == Level(l, b, at) {
      NonNegative(at - t, l.rate);
      if b.Some? {
        Distribute(t - b.value.updatedAt, at - t, l.rate);
      }
    }
  }

  lemma AfterLast(l: Limits, ts: seq<real>, at: real)
    ensures BucketAt(l, ts + [at]) == Some(After(l, BucketAt(l, ts), at))
    ensures Accepted(l, ts + [at], |ts|) == (Level(l, BucketAt(l, ts), at) >= 1.0)
  {
    assert (ts + [at])[..|ts|] == ts;
  }

  /** The answer to a call after any history of all callers is the answer to the caller's own history. */
  lemma AnswerIsOwnHistory(l: Limits, h: seq<Call>, key: string, at: real)
    ensures Level(l, Lookup(Buckets(l, h), key), at) >= 1.0 <==> Accepted(l, TimesOf(h, key) + [at], |TimesOf(h, key)|)
  {
    KeysIndependent(l, h, key);
    AfterLast(l, TimesOf(h, key), at);
  }

  /** A rejected call and its absence look alike from its moment on, whatever calls follow. */
  lemma {:induction false} TraceGone(l: Limits, before: seq<real>, t: real, rest: seq<real>)
    requires l.rate >= 0.0 && Level(l, BucketAt(l, before), t) < 1.0
    requires before != [] ==> before[|before| - 1] <= t
    requires Sorted([t] + rest)
    ensures Alike(l, BucketAt(l, before + [t] + rest), BucketAt(l, before + rest), ([t] + rest)[|rest|])
  {
    if rest == [] {
      AfterLast(l, before, t);
      assert before + [t] + [] == before + [t] && before + [] == before;
      RejectedIsRefill(l, BucketAt(l, before), t);
    } else {
      var n := |rest| - 1;
      var earlier, at := rest[..n], rest[n];
      assert before + [t] + rest == before + [t] + earlier + [at];
      assert before + rest == before + earlier + [at];
      assert [t] + rest == [t] + earlier + [at];
      assert forall i :: 0 <= i < |[t] + earlier| ==> ([t] + earlier)[i] == ([t] + rest)[i];
      assert ([t] + rest)[n] <= ([t] + rest)[n + 1] == at;
      TraceGone(l, before, t, earlier);
      AfterLast(l, before + [t] + earlier, at);
      AfterLast(l, before + earlier, at);
      AfterAlike(l, BucketAt(l, before + [t] + earlier), BucketAt(l, before + earlier), ([t] + earlier)[n], at);
    }
  }

  /** Answers depend on the calls up to them only. */
  lemma EarlierAnswers(l: Limits, before: seq<real>, more: seq<real>, other: seq<real>, k: nat)
    requires k < |before|
    ensures Accepted(l, before + more, k) == Accepted(l, before + other, k)
  {
    assert (before + more)[..k] == before[..k] == (before + other)[..k];
    assert (before + more)[k] == before[k] == (before + other)[k];
  }

  lemma EarlierSame(l: Limits, before: seq<real>, t: real, rest: seq<real>, at: real)
    ensures forall k :: 0 <= k < |before| ==>
              Accepted(l, before + [t] + rest + [at], k) == Accepted(l, before + rest + [at], k)
  {
    var more, other := [t] + rest + [at], rest + [at];
    assert before + [t] + rest + [at] == before + more && before + rest + [at] == before + other;
    forall k | 0 <= k < |before| ensures Accepted(l, before + more, k) == Accepted(l, before + other, k) {
      EarlierAnswers(l, before, more, other, k);
    }
  }

  /** The moment of the call that is left out, and of those after it. */
  lemma SortedParts(before: seq<real>, t: real, rest: seq<real>, at: real)
    requires Sorted(before + [t] + rest + [at])
    ensures Sorted([t] + rest) && ([t] + rest)[|rest|] <= at && (before != [] ==> before[|before| - 1] <= t)
  {
    var all := before + [t] + rest + [at];
    assert forall i :: 0 <= i < |[t] + rest| ==> ([t] + rest)[i] == all[|before| + i];
    assert all[|before| + |rest| + 1] == at && all[|before|] == t;
    assert before != [] ==> before[|before| - 1] == all[|before| - 1];
  }

  lemma LaterSame(l: Limits, before: seq<real>, t: real, rest: seq<real>, at: real)
    requires l.rate >= 0.0 && Sorted(before + [t] + rest + [at]) && Level(l, BucketAt(l, before), t) < 1.0
    ensures Accepted(l, before + [t] + rest + [at], |before| + 1 + |rest|) ==
            Accepted(l, before + rest + [at], |before| + |rest|)
  {
    SortedParts(before, t, rest, at);
    TraceGone(l, before, t, rest);
    AfterLast(l, before + [t] + rest, at);
    AfterLast(l, before + rest, at);
  }

  /** Deleting a rejected call from a history changes no other answer: not the earlier ones, and not
      the answer to any later call `at`, with any calls `rest` in between. */
  lemma RejectedLeavesNoTrace(l: Limits, before: seq<real>, t: real, rest: seq<real>, at: real)
    requires l.rate >= 0.0 && Sorted(before + [t] + rest + [at])
    requires !Accepted(l, before + [t] + rest + [at], |before|)
    ensures Accepted(l, before + [t] + rest + [at], |before| + 1 + |rest|) ==
            Accepted(l, before + rest + [at], |before| + |rest|)
    ensures forall k :: 0 <= k < |before| ==>
              Accepted(l, before + [t] + rest + [at], k) == Accepted(l, before + rest + [at], k)
  {
    var all := before + [t] + rest + [at];
    assert all[..|before|] == before && all[|before|] == t;
    LaterSame(l, before, t, rest, at);
    EarlierSame(l, before, t, rest, at);
  }
}
