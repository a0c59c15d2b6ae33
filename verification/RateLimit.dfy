/** The multi-limit token bucket behind the authentication endpoints. Times are in seconds, as reals.
  *
  * An entry is only ever observed through its levels: how many tokens each bucket would hold if it
  * were refilled now. Refusals and sweeps do not change levels, and every answer is a function of
  * them, which is what the theorems below rest on. */
module RateLimit {
  import opened Common

  datatype Limit = Limit(per: real, burst: int)

  datatype Bucket = Bucket(tokens: real, updated: real)

  datatype BucketSet = BucketSet(buckets: seq<Bucket>, lastSeen: real)

  datatype Answer = Answer(allowed: bool, wait: real)

  /** What the constructor insists on; it panics otherwise. */
  predicate ValidLimits(limits: seq<Limit>) {
    forall i :: 0 <= i < |limits| ==> limits[i].per > 0.0 && limits[i].burst > 0
  }

  type Limits = limits: seq<Limit> | ValidLimits(limits) witness []

  function Rate(limit: Limit): (r: real)
    requires limit.per > 0.0 && limit.burst > 0
    ensures r > 0.0
  {
    PositiveQuotient(limit.burst as real, limit.per);
    limit.burst as real / limit.per
  }

  lemma {:induction false} PositiveQuotient(x: real, y: real)
    requires x > 0.0 && y > 0.0
    ensures x / y > 0.0 && (x / y) * y == x
  {
  }

  function Cap(x: real, limit: Limit): real {
    if x > limit.burst as real then limit.burst as real else x
  }

  function Refill(limit: Limit, b: Bucket, now: real): Bucket
    requires limit.per > 0.0 && limit.burst > 0
  {
    Bucket(Cap(b.tokens + (now - b.updated) * Rate(limit), limit), now)
  }

  /** How long a bucket at `level` takes to hold a whole token. */
  function WaitFor(limit: Limit, level: real): (w: real)
    requires limit.per > 0.0 && limit.burst > 0
    ensures level < 1.0 ==> w > 0.0
  {
    if level < 1.0 then
      PositiveQuotient(1.0 - level, Rate(limit));
      (1.0 - level) / Rate(limit)
    else 0.0
  }

  /** The longest wait for one token among the first `n` buckets. */
  function WaitUpTo(limits: Limits, levels: seq<real>, n: nat): (w: real)
    requires n <= |limits| == |levels|
    ensures w >= 0.0
  {
    if n == 0 then 0.0
    else
      var w := WaitUpTo(limits, levels, n - 1);
      var wait := WaitFor(limits[n - 1], levels[n - 1]);
      if wait > w then wait else w
  }

  predicate Admits(levels: seq<real>) {
    forall i :: 0 <= i < |levels| ==> levels[i] >= 1.0
  }

  // ----- One call, as the code makes it ----------------------------------------------------------

  class Limiter {
    const limits: Limits
    var keys: map<string, BucketSet>

    constructor (limits: Limits)
      ensures this.limits == limits && keys == map[]
    {
      this.limits := limits;
      keys := map[];
    }

    ghost predicate Valid()
      reads this
    {
      forall key :: key in keys ==> |keys[key].buckets| == |limits|
    }

    function Entry(key: string): Option<BucketSet>
      reads this
    {
      if key in keys then Some(keys[key]) else None
    }

    /** Consumes one token of every bucket of the key, or none. Other keys are untouched. */
    method Allow(key: string, now: real) returns (answer: Answer)
      requires Valid()
      modifies this
      ensures Valid()
      ensures answer == Outcome(limits, old(Entry(key)), now)
      ensures keys == old(keys)[key := After(limits, old(Entry(key)), now)]
      ensures answer.allowed <==> forall i :: 0 <= i < |limits| ==> Levels(limits, old(Entry(key)), now)[i] >= 1.0
      ensures forall i :: 0 <= i < |limits| ==>
                && keys[key].buckets[i].updated == now
                && keys[key].buckets[i].tokens ==
                     Levels(limits, old(Entry(key)), now)[i] - (if answer.allowed then 1.0 else 0.0)
                && Levels(limits, old(Entry(key)), now)[i] ==
                     if key !in old(keys) then limits[i].burst as real
                     else
                       var b := old(keys)[key].buckets[i];
                       Grown(limits[i], b.tokens, now - b.updated)
    {
      hide Grown, Rate, Levels, Refill, After, Outcome, WaitUpTo;
      AllowMeans(limits, keys, key, now);
      var set0 := if key in keys then keys[key] else NewSet(limits, now);
      FreshLevels(limits, now);
      ghost var levels := Levels(limits, old(Entry(key)), now);
      var buckets, allowed, maxWait := RefillAll(limits, set0, now);
      if !allowed {
        AfterRefused(limits, old(Entry(key)), now, buckets);
        keys := keys[key := BucketSet(buckets, now)];
        return Answer(false, maxWait);
      }
      buckets := TakeAll(buckets);
      AfterAllowed(limits, old(Entry(key)), now, buckets);
      keys := keys[key := BucketSet(buckets, now)];
      return Answer(true, 0.0);
    }

    /** Evicts exactly the keys not seen for more than twice the longest period. */
    method Sweep(now: real)
      requires Valid()
      modifies this
      ensures Valid()
      ensures forall key :: Entry(key) == AfterSweep(limits, old(Entry(key)), now)
      ensures forall key :: key in keys <==>
                key in old(keys) && !(now > old(keys)[key].lastSeen && IdleLong(limits, old(keys)[key], now))
      ensures forall key :: key in keys ==> keys[key] == old(keys)[key]
    {
      SweepMeans(limits, keys, now);
      var idle := 0.0;
      for i := 0 to |limits|
        invariant idle == IdleUpTo(limits, i)
      {
        if 2.0 * limits[i].per > idle {
          idle := 2.0 * limits[i].per;
        }
      }
      var todo := keys.Keys;
      while todo != {}
        invariant todo <= old(keys.Keys) && Valid()
        invariant forall key :: Entry(key) == if key in todo then old(Entry(key))
                                              else AfterSweep(limits, old(Entry(key)), now)
        decreases |todo|
      {
        var key :| key in todo;
        if now - keys[key].lastSeen > idle {
          keys := keys - {key};
        }
        todo := todo - {key};
      }
    }
  }

  /** The first loop of a call: every bucket is refilled, whether or not an earlier one was short. */
  method RefillAll(limits: Limits, set0: BucketSet, now: real)
    returns (buckets: seq<Bucket>, allowed: bool, maxWait: real)
    requires |set0.buckets| == |limits|
    ensures IsFilled(buckets, Levels(limits, Some(set0), now), now)
    ensures allowed <==> Admits(Levels(limits, Some(set0), now))
    ensures maxWait == WaitUpTo(limits, Levels(limits, Some(set0), now), |limits|)
  {
    hide Levels, Refill, WaitFor;
    ghost var levels := Levels(limits, Some(set0), now);
    buckets, maxWait, allowed := set0.buckets, 0.0, true;
    for i := 0 to |limits|
      invariant |buckets| == |limits|
      invariant IsFilled(buckets[..i], levels[..i], now)
      invariant buckets[i..] == set0.buckets[i..]
      invariant allowed <==> Admits(levels[..i])
      invariant maxWait == WaitUpTo(limits, levels, i)
    {
      assert buckets[i] == buckets[i..][0] == set0.buckets[i];
      var b := Refill(limits[i], buckets[i], now);
      LevelIs(limits, set0, now, i);
      var wait := WaitFor(limits[i], b.tokens);
      buckets := buckets[i := b];
      if b.tokens < 1.0 {
        allowed := false;
        if wait > maxWait {
          maxWait := wait;
        }
      }
    }
    assert levels[..|limits|] == levels && buckets[..|limits|] == buckets;
  }

  lemma {:induction false} LevelIs(limits: Limits, set0: BucketSet, now: real, i: nat)
    requires i < |limits| == |set0.buckets|
    ensures Refill(limits[i], set0.buckets[i], now) == Bucket(Levels(limits, Some(set0), now)[i], now)
    ensures Levels(limits, Some(set0), now)[i] >= 1.0 ==> WaitFor(limits[i], Levels(limits, Some(set0), now)[i]) == 0.0
  {
  }

  /** The second loop: one token from every bucket. */
  method TakeAll(filled: seq<Bucket>) returns (buckets: seq<Bucket>)
    ensures |buckets| == |filled|
    ensures forall i :: 0 <= i < |filled| ==> buckets[i] == filled[i].(tokens := filled[i].tokens - 1.0)
  {
    buckets := filled;
    for i := 0 to |filled|
      invariant |buckets| == |filled|
      invariant forall j :: 0 <= j < i ==> buckets[j] == filled[j].(tokens := filled[j].tokens - 1.0)
      invariant forall j :: i <= j < |filled| ==> buckets[j] == filled[j]
    {
      buckets := buckets[i := buckets[i].(tokens := buckets[i].tokens - 1.0)];
    }
  }

  ghost predicate IsFilled(buckets: seq<Bucket>, levels: seq<real>, now: real) {
    && |buckets| == |levels|
    && forall i :: 0 <= i < |levels| ==> buckets[i] == Bucket(levels[i], now)
  }

  lemma {:induction false} AfterRefused(limits: Limits, entry: Option<BucketSet>, now: real, buckets: seq<Bucket>)
    requires Shaped(limits, entry) && !Admits(Levels(limits, entry, now))
    requires IsFilled(buckets, Levels(limits, entry, now), now)
    ensures BucketSet(buckets, now) == After(limits, entry, now)
    ensures Outcome(limits, entry, now) == Answer(false, WaitUpTo(limits, Levels(limits, entry, now), |limits|))
  {
  }

  lemma {:induction false} AfterAllowed(limits: Limits, entry: Option<BucketSet>, now: real, buckets: seq<Bucket>)
    requires Shaped(limits, entry) && Admits(Levels(limits, entry, now))
    requires |buckets| == |limits|
    requires forall i :: 0 <= i < |limits| ==> buckets[i] == Bucket(Levels(limits, entry, now)[i] - 1.0, now)
    ensures BucketSet(buckets, now) == After(limits, entry, now)
    ensures Outcome(limits, entry, now) == Answer(true, 0.0)
  {
  }

  function NewSet(limits: Limits, now: real): BucketSet {
    BucketSet(seq(|limits|, i requires 0 <= i < |limits| => Bucket(limits[i].burst as real, now)), now)
  }

  function IdleUpTo(limits: Limits, n: nat): real
    requires n <= |limits|
  {
    if n == 0 then 0.0
    else
      var idle := IdleUpTo(limits, n - 1);
      if 2.0 * limits[n - 1].per > idle then 2.0 * limits[n - 1].per else idle
  }

  lemma {:induction false} TimesRate(limit: Limit, x: real)
    requires limit.per > 0.0 && limit.burst > 0
    ensures x * Rate(limit) == x * limit.burst as real / limit.per
    ensures x / Rate(limit) == x * limit.per / limit.burst as real
  {
    var burst, per := limit.burst as real, limit.per;
    var rate, y, z := Rate(limit), x * burst / per, x * per / burst;
    assert rate * per == burst;
    assert y * per == x * burst && z * burst == x * per;
    assert (x * rate) * per == y * per;
    assert (z * rate) * per == z * burst == x * per;
    SameFactor(x * rate, y, per);
    SameFactor(z * rate, x, per);
  }

  lemma {:induction false} SameFactor(x: real, y: real, z: real)
    requires z > 0.0 && x * z == y * z
    ensures x == y
  {
    assert (x - y) * z == 0.0;
  }

  // ----- Levels ----------------------------------------------------------------------------------

  ghost predicate Shaped(limits: Limits, entry: Option<BucketSet>) {
    entry.Some? ==> |entry.value.buckets| == |limits|
  }

  /** The tokens each bucket would hold if refilled now; a key without an entry is full. */
  function Levels(limits: Limits, entry: Option<BucketSet>, now: real): (levels: seq<real>)
    requires Shaped(limits, entry)
    ensures |levels| == |limits|
  {
    if entry.None? then seq(|limits|, i requires 0 <= i < |limits| => limits[i].burst as real)
    else seq(|limits|, i requires 0 <= i < |limits| => Refill(limits[i], entry.value.buckets[i], now).tokens)
  }

  lemma {:induction false} FreshLevels(limits: Limits, now: real)
    ensures Levels(limits, Some(NewSet(limits, now)), now) == Levels(limits, None, now)
  {
  }

  function Outcome(limits: Limits, entry: Option<BucketSet>, now: real): Answer
    requires Shaped(limits, entry)
  {
    var levels := Levels(limits, entry, now);
    if Admits(levels) then Answer(true, 0.0) else Answer(false, WaitUpTo(limits, levels, |limits|))
  }

  function After(limits: Limits, entry: Option<BucketSet>, now: real): (next: BucketSet)
    requires Shaped(limits, entry)
    ensures |next.buckets| == |limits|
  {
    var levels := Levels(limits, entry, now);
    var taken := if Admits(levels) then 1.0 else 0.0;
    BucketSet(seq(|limits|, i requires 0 <= i < |limits| => Bucket(levels[i] - taken, now)), now)
  }

  function AfterSweep(limits: Limits, entry: Option<BucketSet>, now: real): (next: Option<BucketSet>) {
    if entry.Some? && now - entry.value.lastSeen > IdleUpTo(limits, |limits|) then None else entry
  }

  // ----- Refilling in pieces is refilling once -----------------------------------------------------

  /** What a bucket holds `dt` after it held `level`. */
  function Later(limit: Limit, level: real, dt: real): real
    requires limit.per > 0.0 && limit.burst > 0
  {
    Cap(level + dt * Rate(limit), limit)
  }

  ghost predicate BucketOk(limit: Limit, b: Bucket, updated: real) {
    b.updated == updated && 0.0 <= b.tokens <= limit.burst as real
  }

  /** Tokens within the burst, and every bucket refilled when the key was last seen. */
  ghost predicate EntryOk(limits: Limits, entry: Option<BucketSet>, now: real) {
    && Shaped(limits, entry)
    && (entry.Some? ==>
      && entry.value.lastSeen <= now
      && forall i :: 0 <= i < |limits| ==> BucketOk(limits[i], entry.value.buckets[i], entry.value.lastSeen))
  }

  lemma {:induction false} Product(x: real, y: real)
    requires x >= 0.0 && y >= 0.0
    ensures x * y >= 0.0
  {
  }

  lemma {:induction false} LevelInRange(limits: Limits, entry: Option<BucketSet>, now: real, i: nat)
    requires EntryOk(limits, entry, now) && i < |limits|
    ensures 0.0 <= Levels(limits, entry, now)[i] <= limits[i].burst as real
  {
    if entry.Some? {
      var b := entry.value.buckets[i];
      assert BucketOk(limits[i], b, entry.value.lastSeen);
      Product(now - b.updated, Rate(limits[i]));
    }
  }

  lemma {:induction false} LaterTwice(limit: Limit, tokens: real, d0: real, d1: real)
    requires limit.per > 0.0 && limit.burst > 0 && d0 >= 0.0 && d1 >= 0.0
    ensures Later(limit, Later(limit, tokens, d0), d1) == Later(limit, tokens, d0 + d1)
  {
    var rate := Rate(limit);
    assert (d0 + d1) * rate == d0 * rate + d1 * rate;
    Product(d1, rate);
  }

  /** A level only depends on the level at any earlier moment and the time since. */
  lemma {:induction false} LevelLater(limits: Limits, entry: Option<BucketSet>, t0: real, t1: real, i: nat)
    requires EntryOk(limits, entry, t0) && t0 <= t1 && i < |limits|
    ensures Levels(limits, entry, t1)[i] == Later(limits[i], Levels(limits, entry, t0)[i], t1 - t0)
  {
    if entry.Some? {
      var b := entry.value.buckets[i];
      assert BucketOk(limits[i], b, entry.value.lastSeen);
      LaterTwice(limits[i], b.tokens, t0 - b.updated, t1 - t0);
    } else {
      Product(t1 - t0, Rate(limits[i]));
    }
  }

  /** `tokens` grown for `dt` at Burst / Per, up to the burst. */
  function Grown(limit: Limit, tokens: real, dt: real): real
    requires limit.per > 0.0
  {
    var held := tokens + dt * limit.burst as real / limit.per;
    if held > limit.burst as real then limit.burst as real else held
  }

  /** The time a bucket at `level` needs to grow to one token. */
  function Needed(limit: Limit, level: real): real
    requires limit.burst > 0
  {
    (1.0 - level) * limit.per / limit.burst as real
  }

  lemma {:induction false} LaterMeans(limit: Limit, level: real, dt: real)
    requires limit.per > 0.0 && limit.burst > 0
    ensures Later(limit, level, dt) == Grown(limit, level, dt)
    ensures level < 1.0 ==> WaitFor(limit, level) == Needed(limit, level)
    ensures level >= 1.0 ==> WaitFor(limit, level) == 0.0
  {
    TimesRate(limit, dt);
    TimesRate(limit, 1.0 - level);
    hide Rate;
  }

  /** What a bucket holds: its burst for a key never seen, and `dt` after it held `level` it holds
    * level + dt * Burst / Per, or its burst if that is less. */
  lemma {:induction false} HoldsAfter(limits: Limits, entry: Option<BucketSet>, t0: real, dt: real, i: nat)
    requires EntryOk(limits, entry, t0) && dt >= 0.0 && i < |limits|
    ensures entry.None? ==> Levels(limits, entry, t0)[i] == limits[i].burst as real
    ensures Levels(limits, entry, t0 + dt)[i] == Grown(limits[i], Levels(limits, entry, t0)[i], dt)
  {
    LevelLater(limits, entry, t0, t0 + dt, i);
    LaterMeans(limits[i], Levels(limits, entry, t0)[i], dt);
    hide Rate, Later, Grown, Refill;
  }

  /** The tokens of bucket `i` at `now`, from the entry as stored. */
  lemma {:induction false} LevelMeans(limits: Limits, entry: Option<BucketSet>, now: real, i: nat)
    requires Shaped(limits, entry) && i < |limits|
    ensures entry.None? ==> Levels(limits, entry, now)[i] == limits[i].burst as real
    ensures entry.Some? ==>
              var b := entry.value.buckets[i];
              Levels(limits, entry, now)[i] == Grown(limits[i], b.tokens, now - b.updated)
  {
    if entry.Some? {
      LaterMeans(limits[i], entry.value.buckets[i].tokens, now - entry.value.buckets[i].updated);
    }
    hide Rate, Grown;
  }

  /** What an answer means: a call is let through exactly when every bucket holds a token; then each is one down, and
    * otherwise as it was, with the longest time any bucket short of a token needs for one as the wait. */
  lemma {:induction false} OutcomeMeans(limits: Limits, entry: Option<BucketSet>, now: real)
    requires Shaped(limits, entry)
    ensures var levels, answer := Levels(limits, entry, now), Outcome(limits, entry, now);
            var next := After(limits, entry, now);
            && (answer.allowed <==> forall i :: 0 <= i < |levels| ==> levels[i] >= 1.0)
            && (answer.allowed ==> answer.wait == 0.0)
            && next.lastSeen == now && |next.buckets| == |limits|
            && (forall i :: 0 <= i < |limits| ==>
                  next.buckets[i] == Bucket(levels[i] - (if answer.allowed then 1.0 else 0.0), now))
            && (!answer.allowed ==>
                  && (forall i :: 0 <= i < |limits| && levels[i] < 1.0 ==> answer.wait >= Needed(limits[i], levels[i]))
                  && exists i :: 0 <= i < |limits| && levels[i] < 1.0 && answer.wait == Needed(limits[i], levels[i]))
  {
    hide Rate, Levels, Needed, WaitUpTo;
    var levels := Levels(limits, entry, now);
    if !Admits(levels) {
      var short :| 0 <= short < |levels| && levels[short] < 1.0;
      WaitIsSome(limits, levels, |limits|, short);
    }
  }

  /** The same of one key in the table of a limiter. */
  lemma {:induction false} AllowMeans(limits: Limits, keys: map<string, BucketSet>, key: string, now: real)
    requires key in keys ==> |keys[key].buckets| == |limits|
    ensures var entry := if key in keys then Some(keys[key]) else None;
            var answer, next := Outcome(limits, entry, now), After(limits, entry, now);
            && |next.buckets| == |limits|
            && (answer.allowed <==> forall i :: 0 <= i < |limits| ==> Levels(limits, entry, now)[i] >= 1.0)
            && forall i :: 0 <= i < |limits| ==>
                 && next.buckets[i].updated == now
                 && next.buckets[i].tokens ==
                      Levels(limits, entry, now)[i] - (if answer.allowed then 1.0 else 0.0)
                 && Levels(limits, entry, now)[i] ==
                      if key !in keys then limits[i].burst as real
                      else Grown(limits[i], keys[key].buckets[i].tokens, now - keys[key].buckets[i].updated)
  {
    hide Grown, Rate, Levels, After, Outcome;
    var entry := if key in keys then Some(keys[key]) else None;
    OutcomeMeans(limits, entry, now);
    forall i | 0 <= i < |limits| {
      LevelMeans(limits, entry, now, i);
    }
  }

  lemma {:induction false} WaitIsSome(limits: Limits, levels: seq<real>, n: nat, short: nat)
    requires short < n <= |limits| == |levels| && levels[short] < 1.0
    ensures forall i :: 0 <= i < n && levels[i] < 1.0 ==> WaitUpTo(limits, levels, n) >= Needed(limits[i], levels[i])
    ensures exists i :: 0 <= i < n && levels[i] < 1.0 && WaitUpTo(limits, levels, n) == Needed(limits[i], levels[i])
  {
    var last := n - 1;
    LaterMeans(limits[last], levels[last], 0.0);
    hide Rate, Needed, WaitFor;
    if exists i :: 0 <= i < last && levels[i] < 1.0 {
      var i :| 0 <= i < last && levels[i] < 1.0;
      WaitIsSome(limits, levels, last, i);
    } else {
      NoWait(limits, levels, last);
      assert short == last;
    }
  }

  lemma {:induction false} NoWait(limits: Limits, levels: seq<real>, n: nat)
    requires n <= |limits| == |levels| && forall i :: 0 <= i < n ==> levels[i] >= 1.0
    ensures WaitUpTo(limits, levels, n) == 0.0
  {
    if n > 0 {
      NoWait(limits, levels, n - 1);
    }
  }

  /** A call leaves every bucket one token down, or exactly where it was. */
  lemma {:induction false} LevelAfter(limits: Limits, entry: Option<BucketSet>, now: real, i: nat)
    requires EntryOk(limits, entry, now) && i < |limits|
    ensures EntryOk(limits, Some(After(limits, entry, now)), now)
    ensures Levels(limits, Some(After(limits, entry, now)), now)[i]
         == Levels(limits, entry, now)[i] - (if Outcome(limits, entry, now).allowed then 1.0 else 0.0)
  {
    var next := After(limits, entry, now);
    var levels := Levels(limits, entry, now);
    forall j | 0 <= j < |limits| ensures BucketOk(limits[j], next.buckets[j], now) {
      LevelInRange(limits, entry, now, j);
    }
    LevelInRange(limits, entry, now, i);
    RefillAtOnce(limits[i], next.buckets[i]);
  }

  lemma {:induction false} RefillAtOnce(limit: Limit, b: Bucket)
    requires limit.per > 0.0 && limit.burst > 0 && b.tokens <= limit.burst as real
    ensures Refill(limit, b, b.updated) == b
  {
    assert (b.updated - b.updated) * Rate(limit) == 0.0;
  }

  /** A refused call consumes nothing from any bucket: every later level is what it would have been. */
  lemma {:induction false} RefusalCostsNothing(limits: Limits, entry: Option<BucketSet>, now: real, t: real)
    requires EntryOk(limits, entry, now) && now <= t
    requires !Outcome(limits, entry, now).allowed
    ensures Levels(limits, Some(After(limits, entry, now)), t) == Levels(limits, entry, t)
  {
    var next := Some(After(limits, entry, now));
    forall i | 0 <= i < |limits| ensures Levels(limits, next, t)[i] == Levels(limits, entry, t)[i] {
      LevelAfter(limits, entry, now, i);
      LevelLater(limits, entry, now, t, i);
      LevelLater(limits, next, now, t, i);
    }
  }

  // ----- Eviction --------------------------------------------------------------------------------

  lemma {:induction false} IdleCovers(limits: Limits, n: nat, i: nat)
    requires i < n <= |limits|
    ensures IdleUpTo(limits, n) >= 2.0 * limits[i].per
    decreases n
  {
    if i < n - 1 {
      IdleCovers(limits, n - 1, i);
    }
  }

  /** Not seen for more than twice the period of any limit. */
  predicate IdleLong(limits: Limits, entry: BucketSet, now: real) {
    forall i :: 0 <= i < |limits| ==> now - entry.lastSeen > 2.0 * limits[i].per
  }

  lemma {:induction false} IdleUpToIs(limits: Limits, n: nat, t: real)
    requires n <= |limits|
    ensures t > IdleUpTo(limits, n) <==> t > 0.0 && forall i :: 0 <= i < n ==> t > 2.0 * limits[i].per
  {
    if n > 0 {
      IdleUpToIs(limits, n - 1, t);
    }
  }

  /** A sweep evicts exactly the keys idle for more than twice the longest period, and keeps the others as they are. */
  lemma {:induction false} SweepMeans(limits: Limits, keys: map<string, BucketSet>, now: real)
    ensures forall key :: key in keys ==>
              AfterSweep(limits, Some(keys[key]), now) ==
                if now > keys[key].lastSeen && IdleLong(limits, keys[key], now) then None else Some(keys[key])
    ensures AfterSweep(limits, None, now) == None
  {
    forall key | key in keys
      ensures now - keys[key].lastSeen > IdleUpTo(limits, |limits|) <==>
                now > keys[key].lastSeen && IdleLong(limits, keys[key], now)
    {
      IdleUpToIs(limits, |limits|, now - keys[key].lastSeen);
    }
  }

  /** One period is enough to fill a bucket from nothing. */
  lemma {:induction false} FullAfterPeriod(limit: Limit, tokens: real, dt: real)
    requires limit.per > 0.0 && limit.burst > 0 && tokens >= 0.0 && dt >= limit.per
    ensures Later(limit, tokens, dt) == limit.burst as real
  {
    var rate := Rate(limit);
    PositiveQuotient(limit.burst as real, limit.per);
    assert rate * limit.per == limit.burst as real;
    assert dt * rate == limit.per * rate + (dt - limit.per) * rate;
    Product(dt - limit.per, rate);
  }

  /** What a sweep removes is indistinguishable from a key never seen. */
  lemma {:induction false} SweepKeepsLevels(limits: Limits, entry: Option<BucketSet>, now: real, t: real)
    requires EntryOk(limits, entry, now) && now <= t
    ensures EntryOk(limits, AfterSweep(limits, entry, now), now)
    ensures Levels(limits, AfterSweep(limits, entry, now), t) == Levels(limits, entry, t)
  {
    if AfterSweep(limits, entry, now) != entry {
      forall i | 0 <= i < |limits| ensures Levels(limits, entry, t)[i] == limits[i].burst as real {
        IdleIsFull(limits, entry, t, i);
      }
    }
  }

  lemma {:induction false} IdleIsFull(limits: Limits, entry: Option<BucketSet>, t: real, i: nat)
    requires EntryOk(limits, entry, t) && entry.Some? && i < |limits|
    requires t - entry.value.lastSeen > IdleUpTo(limits, |limits|)
    ensures Levels(limits, entry, t)[i] == limits[i].burst as real
  {
    var b := entry.value.buckets[i];
    assert BucketOk(limits[i], b, entry.value.lastSeen);
    IdleCovers(limits, |limits|, i);
    FullAfterPeriod(limits[i], b.tokens, t - b.updated);
  }

  // ----- Runs ------------------------------------------------------------------------------------

  /** What can happen to one key; calls for other keys never touch it. */
  datatype Op = Call(at: real) | Evict(at: real)

  /** The clock never runs backwards. */
  predicate Chronological(from: real, ops: seq<Op>)
    decreases ops
  {
    ops == [] || (from <= ops[0].at && Chronological(ops[0].at, ops[1..]))
  }

  function Apply(limits: Limits, entry: Option<BucketSet>, op: Op): (next: Option<BucketSet>)
    requires Shaped(limits, entry)
    ensures Shaped(limits, next)
  {
    match op
    case Call(at) => Some(After(limits, entry, at))
    case Evict(at) => AfterSweep(limits, entry, at)
  }

  function RunOn(limits: Limits, entry: Option<BucketSet>, ops: seq<Op>): (next: Option<BucketSet>)
    requires Shaped(limits, entry)
    ensures Shaped(limits, next)
    decreases ops
  {
    if ops == [] then entry else RunOn(limits, Apply(limits, entry, ops[0]), ops[1..])
  }

  /** What the calls of a run were told. */
  function Answers(limits: Limits, entry: Option<BucketSet>, ops: seq<Op>): seq<Answer>
    requires Shaped(limits, entry)
    decreases ops
  {
    if ops == [] then []
    else
      (if ops[0].Call? then [Outcome(limits, entry, ops[0].at)] else [])
      + Answers(limits, Apply(limits, entry, ops[0]), ops[1..])
  }

  function WithoutSweeps(ops: seq<Op>): seq<Op> {
    if ops == [] then [] else (if ops[0].Call? then [ops[0]] else []) + WithoutSweeps(ops[1..])
  }

  function CountAllowed(answers: seq<Answer>): nat {
    if answers == [] then 0 else (if answers[0].allowed then 1 else 0) + CountAllowed(answers[1..])
  }

  function EndTime(from: real, ops: seq<Op>): (t: real)
    ensures Chronological(from, ops) ==> t >= from
    decreases ops
  {
    if ops == [] then from else EndTime(ops[0].at, ops[1..])
  }

  lemma {:induction false} EntryLater(limits: Limits, entry: Option<BucketSet>, t0: real, t1: real)
    requires EntryOk(limits, entry, t0) && t0 <= t1
    ensures EntryOk(limits, entry, t1)
  {
  }

  lemma {:induction false} ApplyOk(limits: Limits, entry: Option<BucketSet>, from: real, op: Op)
    requires EntryOk(limits, entry, from) && from <= op.at
    ensures EntryOk(limits, Apply(limits, entry, op), op.at)
  {
    EntryLater(limits, entry, from, op.at);
    match op
    case Call(at) =>
      if |limits| > 0 {
        LevelAfter(limits, entry, at, 0);
      }
    case Evict(at) =>
      SweepKeepsLevels(limits, entry, at, at);
  }

  /** Throughout every run every bucket holds between nothing and its burst. */
  lemma {:induction false} RunOk(limits: Limits, entry: Option<BucketSet>, from: real, ops: seq<Op>)
    requires EntryOk(limits, entry, from) && Chronological(from, ops)
    ensures EntryOk(limits, RunOn(limits, entry, ops), EndTime(from, ops))
    decreases ops
  {
    if ops != [] {
      ApplyOk(limits, entry, from, ops[0]);
      RunOk(limits, Apply(limits, entry, ops[0]), ops[0].at, ops[1..]);
    }
  }

  /** What happens to a whole limiter: calls for any key, and sweeps. */
  datatype KeyedOp = KeyedCall(key: string, at: real) | SweepAll(at: real)

  function EntryIn(keys: map<string, BucketSet>, key: string): Option<BucketSet> {
    if key in keys then Some(keys[key]) else None
  }

  ghost predicate AllShaped(limits: Limits, keys: map<string, BucketSet>) {
    forall key :: key in keys ==> |keys[key].buckets| == |limits|
  }

  function ApplyKeyed(limits: Limits, keys: map<string, BucketSet>, op: KeyedOp): (next: map<string, BucketSet>)
    requires AllShaped(limits, keys)
    ensures AllShaped(limits, next)
  {
    match op
    case KeyedCall(key, at) => keys[key := After(limits, EntryIn(keys, key), at)]
    case SweepAll(at) => map key | key in keys && AfterSweep(limits, Some(keys[key]), at).Some? :: keys[key]
  }

  function RunKeyed(limits: Limits, keys: map<string, BucketSet>, ops: seq<KeyedOp>): (next: map<string, BucketSet>)
    requires AllShaped(limits, keys)
    ensures AllShaped(limits, next)
    decreases ops
  {
    if ops == [] then keys else RunKeyed(limits, ApplyKeyed(limits, keys, ops[0]), ops[1..])
  }

  /** The part of a run that concerns one key. */
  function Concerning(ops: seq<KeyedOp>, key: string): seq<Op> {
    if ops == [] then []
    else
      (match ops[0]
       case KeyedCall(other, at) => if other == key then [Call(at)] else []
       case SweepAll(at) => [Evict(at)])
      + Concerning(ops[1..], key)
  }

  /** Keys are independent: in any run of a whole limiter, a key is left as if its own calls and the sweeps were
    * all there had been. Every result about one key is therefore a result about every key. */
  lemma {:induction false} KeysIndependent(limits: Limits, keys: map<string, BucketSet>, ops: seq<KeyedOp>, key: string)
    requires AllShaped(limits, keys)
    ensures EntryIn(RunKeyed(limits, keys, ops), key) == RunOn(limits, EntryIn(keys, key), Concerning(ops, key))
    decreases ops
  {
    if ops != [] {
      hide After, AfterSweep;
      var own, next := Concerning(ops, key), ApplyKeyed(limits, keys, ops[0]);
      KeysIndependent(limits, next, ops[1..], key);
      SweepOfNone(limits, EntryIn(keys, key), ops[0].at);
      if ops[0].SweepAll? || ops[0].key == key {
        assert own[1..] == Concerning(ops[1..], key);
      } else {
        assert own == Concerning(ops[1..], key);
      }
    }
  }

  lemma {:induction false} SweepOfNone(limits: Limits, entry: Option<BucketSet>, now: real)
    ensures AfterSweep(limits, entry, now) == None || AfterSweep(limits, entry, now) == entry
    ensures AfterSweep(limits, None, now) == None
  {
  }

  // ----- Sweeping is invisible -------------------------------------------------------------------

  ghost predicate SameLevels(limits: Limits, a: Option<BucketSet>, b: Option<BucketSet>, now: real) {
    && EntryOk(limits, a, now) && EntryOk(limits, b, now)
    && Levels(limits, a, now) == Levels(limits, b, now)
  }

  lemma {:induction false} SameLater(limits: Limits, a: Option<BucketSet>, b: Option<BucketSet>, t0: real, t1: real)
    requires SameLevels(limits, a, b, t0) && t0 <= t1
    ensures SameLevels(limits, a, b, t1)
  {
    forall i | 0 <= i < |limits| ensures Levels(limits, a, t1)[i] == Levels(limits, b, t1)[i] {
      LevelLater(limits, a, t0, t1, i);
      LevelLater(limits, b, t0, t1, i);
    }
  }

  lemma {:induction false} SameAfter(limits: Limits, a: Option<BucketSet>, b: Option<BucketSet>, now: real)
    requires SameLevels(limits, a, b, now)
    ensures Outcome(limits, a, now) == Outcome(limits, b, now)
    ensures After(limits, a, now) == After(limits, b, now)
    ensures EntryOk(limits, Some(After(limits, a, now)), now)
  {
    ApplyOk(limits, a, now, Call(now));
  }

  /** A limiter swept at any moments gives every caller the answer an unswept one gives. */
  lemma {:induction false} SweepIsInvisible(limits: Limits, a: Option<BucketSet>, b: Option<BucketSet>, from: real,
                                            ops: seq<Op>)
    requires SameLevels(limits, a, b, from) && Chronological(from, ops)
    ensures Answers(limits, a, ops) == Answers(limits, b, WithoutSweeps(ops))
    decreases ops
  {
    if ops == [] {
    } else {
      var at, rest := ops[0].at, ops[1..];
      SameLater(limits, a, b, from, at);
      if ops[0].Call? {
        SameAfter(limits, a, b, at);
        var next := Some(After(limits, a, at));
        SweepIsInvisible(limits, next, next, at, rest);
        assert WithoutSweeps(ops) == [ops[0]] + WithoutSweeps(rest);
        assert WithoutSweeps(ops)[1..] == WithoutSweeps(rest);
      } else {
        SweepKeepsLevels(limits, a, at, at);
        SweepIsInvisible(limits, AfterSweep(limits, a, at), b, at, rest);
        assert WithoutSweeps(ops) == WithoutSweeps(rest);
      }
    }
  }

  // ----- The rate bound --------------------------------------------------------------------------

  lemma {:induction false} Elapse(rate: real, a: real, b: real, c: real)
    ensures (c - a) * rate == (b - a) * rate + (c - b) * rate
  {
  }

  lemma {:induction false} Growth(limits: Limits, entry: Option<BucketSet>, t0: real, t1: real, i: nat)
    requires EntryOk(limits, entry, t0) && t0 <= t1 && i < |limits|
    ensures Levels(limits, entry, t1)[i] <= Levels(limits, entry, t0)[i] + (t1 - t0) * Rate(limits[i])
  {
    LevelLater(limits, entry, t0, t1, i);
  }

  function Price(limits: Limits, entry: Option<BucketSet>, op: Op): int
    requires Shaped(limits, entry)
  {
    if op.Call? && Outcome(limits, entry, op.at).allowed then 1 else 0
  }

  lemma {:induction false} CountFirst(limits: Limits, entry: Option<BucketSet>, ops: seq<Op>)
    requires Shaped(limits, entry) && ops != []
    ensures CountAllowed(Answers(limits, entry, ops))
         == Price(limits, entry, ops[0]) + CountAllowed(Answers(limits, Apply(limits, entry, ops[0]), ops[1..]))
  {
    var rest := Answers(limits, Apply(limits, entry, ops[0]), ops[1..]);
    if ops[0].Call? {
      assert Answers(limits, entry, ops)[1..] == rest;
    } else {
      assert Answers(limits, entry, ops) == rest;
    }
  }

  lemma {:induction false} PayNow(limits: Limits, entry: Option<BucketSet>, op: Op, i: nat)
    requires EntryOk(limits, entry, op.at) && i < |limits|
    ensures Levels(limits, Apply(limits, entry, op), op.at)[i]
         == Levels(limits, entry, op.at)[i] - Price(limits, entry, op) as real
  {
    if op.Call? {
      LevelAfter(limits, entry, op.at, i);
    } else {
      SweepKeepsLevels(limits, entry, op.at, op.at);
    }
  }

  lemma {:induction false} PaidStep(limits: Limits, entry: Option<BucketSet>, from: real, op: Op, i: nat, rate: real)
    requires EntryOk(limits, entry, from) && from <= op.at && i < |limits|
    requires rate == Rate(limits[i])
    ensures EntryOk(limits, Apply(limits, entry, op), op.at)
    ensures Price(limits, entry, op) as real + Levels(limits, Apply(limits, entry, op), op.at)[i]
         <= Levels(limits, entry, from)[i] + (op.at - from) * rate
  {
    hide Levels, Rate, Apply;
    ApplyOk(limits, entry, from, op);
    EntryLater(limits, entry, from, op.at);
    PayNow(limits, entry, op, i);
    Growth(limits, entry, from, op.at, i);
  }

  lemma {:induction false} PaidSum(price: int, rest: int, l0: real, l1: real, l2: real, rate: real, a: real,
                                   b: real, c: real)
    requires price as real + l1 <= l0 + (b - a) * rate
    requires rest as real + l2 <= l1 + (c - b) * rate
    ensures (price + rest) as real + l2 <= l0 + (c - a) * rate
  {
    Elapse(rate, a, b, c);
  }

  /** What is let through is paid for: by the level at the start and the refill since. */
  lemma {:induction false} Paid(limits: Limits, entry: Option<BucketSet>, from: real, ops: seq<Op>, i: nat, rate: real)
    requires EntryOk(limits, entry, from) && Chronological(from, ops) && i < |limits|
    requires rate == Rate(limits[i])
    ensures CountAllowed(Answers(limits, entry, ops)) as real
            + Levels(limits, RunOn(limits, entry, ops), EndTime(from, ops))[i]
         <= Levels(limits, entry, from)[i] + (EndTime(from, ops) - from) * rate
    decreases ops, 1
  {
    hide Levels, Apply, Rate;
    if ops == [] {
      Elapse(rate, from, from, from);
    } else {
      PaidOn(limits, entry, from, ops, i, rate);
    }
  }

  lemma {:induction false} PaidOn(limits: Limits, entry: Option<BucketSet>, from: real, ops: seq<Op>, i: nat,
                                  rate: real)
    requires EntryOk(limits, entry, from) && Chronological(from, ops) && i < |limits| && ops != []
    requires rate == Rate(limits[i])
    ensures CountAllowed(Answers(limits, entry, ops)) as real
            + Levels(limits, RunOn(limits, entry, ops), EndTime(from, ops))[i]
         <= Levels(limits, entry, from)[i] + (EndTime(from, ops) - from) * rate
    decreases ops, 0
  {
    hide Levels, Apply, Rate, Answers, CountAllowed, Price;
    var at, end, next := ops[0].at, EndTime(from, ops), Apply(limits, entry, ops[0]);
    PaidStep(limits, entry, from, ops[0], i, rate);
    Paid(limits, next, at, ops[1..], i, rate);
    CountFirst(limits, entry, ops);
    PaidSum(Price(limits, entry, ops[0]), CountAllowed(Answers(limits, next, ops[1..])),
            Levels(limits, entry, from)[i], Levels(limits, next, at)[i],
            Levels(limits, RunOn(limits, entry, ops), end)[i], rate, from, at, end);
  }

  /** In every run from an empty limiter, for every limit, any stretch `window` of the run that starts no
    * earlier than `a` and ends no later than `b` lets through at most Burst + (b - a) * Burst / Per calls. */
  lemma {:induction false} RateBound(limits: Limits, start: real, before: seq<Op>, window: seq<Op>, a: real,
                                     b: real, i: nat)
    requires Chronological(start, before) && EndTime(start, before) <= a
    requires Chronological(a, window) && EndTime(a, window) <= b
    requires i < |limits|
    ensures CountAllowed(Answers(limits, RunOn(limits, None, before), window)) as real
         <= limits[i].burst as real + (b - a) * limits[i].burst as real / limits[i].per
  {
    hide Levels, Apply, RunOn, Answers, Rate;
    TimesRate(limits[i], b - a);
    ReachedBound(limits, start, before, window, a, b, i);
  }

  lemma {:induction false} ReachedBound(limits: Limits, start: real, before: seq<Op>, window: seq<Op>, a: real,
                                        b: real, i: nat)
    requires Chronological(start, before) && EndTime(start, before) <= a
    requires Chronological(a, window) && EndTime(a, window) <= b
    requires i < |limits|
    ensures CountAllowed(Answers(limits, RunOn(limits, None, before), window)) as real
         <= limits[i].burst as real + (b - a) * Rate(limits[i])
  {
    hide Levels, Apply, RunOn, Answers, Rate;
    RunOk(limits, None, start, before);
    var entry := RunOn(limits, None, before);
    EntryLater(limits, entry, EndTime(start, before), a);
    WindowBound(limits, entry, a, window, b, i);
  }

  lemma {:induction false} WindowBound(limits: Limits, entry: Option<BucketSet>, a: real, window: seq<Op>, b: real,
                                       i: nat)
    requires EntryOk(limits, entry, a) && Chronological(a, window) && EndTime(a, window) <= b
    requires i < |limits|
    ensures CountAllowed(Answers(limits, entry, window)) as real <= limits[i].burst as real + (b - a) * Rate(limits[i])
  {
    hide Levels, Apply, Rate;
    var rate := Rate(limits[i]);
    var end := EndTime(a, window);
    Paid(limits, entry, a, window, i, rate);
    RunOk(limits, entry, a, window);
    LevelInRange(limits, entry, a, i);
    LevelInRange(limits, RunOn(limits, entry, window), end, i);
    WindowSum(CountAllowed(Answers(limits, entry, window)), Levels(limits, entry, a)[i],
              Levels(limits, RunOn(limits, entry, window), end)[i], limits[i].burst as real, rate, a, end, b);
  }

  lemma {:induction false} WindowSum(count: int, l0: real, l1: real, burst: real, rate: real, a: real, end: real,
                                     b: real)
    requires count as real + l1 <= l0 + (end - a) * rate
    requires 0.0 <= l1 && l0 <= burst && rate > 0.0 && end <= b
    ensures count as real <= burst + (b - a) * rate
  {
    Elapse(rate, a, end, b);
    Product(b - end, rate);
  }

  // ----- Retry-After is exact --------------------------------------------------------------------

  lemma {:induction false} WaitIsLongest(limits: Limits, levels: seq<real>, n: nat, d: real)
    requires n <= |limits| == |levels| && d >= 0.0
    ensures d >= WaitUpTo(limits, levels, n) <==> forall i :: 0 <= i < n ==> d >= WaitFor(limits[i], levels[i])
  {
    if n > 0 {
      WaitIsLongest(limits, levels, n - 1, d);
    }
  }

  lemma {:induction false} EnoughAfterWait(limit: Limit, level: real, d: real)
    requires limit.per > 0.0 && limit.burst > 0 && d >= 0.0
    ensures Later(limit, level, d) >= 1.0 <==> d >= WaitFor(limit, level)
  {
    var rate := Rate(limit);
    if level >= 1.0 {
      Product(d, rate);
    } else {
      var wait := WaitFor(limit, level);
      PositiveQuotient(1.0 - level, rate);
      assert wait * rate == 1.0 - level;
      assert d * rate == wait * rate + (d - wait) * rate;
      if d >= wait {
        Product(d - wait, rate);
      } else {
        assert (wait - d) * rate > 0.0;
      }
    }
  }

  /** With nothing let through in between, a key is admitted exactly once the wait is over. */
  lemma {:induction false} AdmitsAfterWait(limits: Limits, entry: Option<BucketSet>, now: real, t: real)
    requires EntryOk(limits, entry, now) && now <= t
    ensures Outcome(limits, entry, t).allowed <==> t >= now + WaitUpTo(limits, Levels(limits, entry, now), |limits|)
  {
    var levels, later := Levels(limits, entry, now), Levels(limits, entry, t);
    WaitIsLongest(limits, levels, |limits|, t - now);
    forall i | 0 <= i < |limits| ensures later[i] >= 1.0 <==> t - now >= WaitFor(limits[i], levels[i]) {
      LevelLater(limits, entry, now, t, i);
      EnoughAfterWait(limits[i], levels[i], t - now);
    }
  }

  predicate AllRefused(answers: seq<Answer>) {
    answers == [] || (!answers[0].allowed && AllRefused(answers[1..]))
  }

  predicate AllBefore(ops: seq<Op>, t: real) {
    ops == [] || (ops[0].at < t && AllBefore(ops[1..], t))
  }

  /** After a refusal with wait `w`, every call before `now + w` is refused, however many are made and whatever
    * is swept, and a call at `u` after them is let through exactly when `u` is at or past `now + w`. */
  lemma {:induction false} RetryExact(limits: Limits, entry: Option<BucketSet>, now: real, ops: seq<Op>, u: real)
    requires EntryOk(limits, entry, now) && !Outcome(limits, entry, now).allowed
    requires Chronological(now, ops) && EndTime(now, ops) <= u
    requires AllBefore(ops, now + Outcome(limits, entry, now).wait)
    ensures var next := Some(After(limits, entry, now));
            && AllRefused(Answers(limits, next, ops))
            && (Outcome(limits, RunOn(limits, next, ops), u).allowed <==> u >= now + Outcome(limits, entry, now).wait)
  {
    var next := Some(After(limits, entry, now));
    ApplyOk(limits, entry, now, Call(now));
    RefusalCostsNothing(limits, entry, now, now);
    RefusedUntil(limits, entry, next, now, now, ops, u);
  }

  lemma {:induction false} RefusedUntil(limits: Limits, entry: Option<BucketSet>, cur: Option<BucketSet>, now: real,
                                        from: real, ops: seq<Op>, u: real)
    requires now <= from && EntryOk(limits, entry, now) && !Outcome(limits, entry, now).allowed
    requires SameLevels(limits, entry, cur, from)
    requires Chronological(from, ops) && EndTime(from, ops) <= u
    requires AllBefore(ops, now + Outcome(limits, entry, now).wait)
    ensures AllRefused(Answers(limits, cur, ops))
    ensures Outcome(limits, RunOn(limits, cur, ops), u).allowed <==> u >= now + Outcome(limits, entry, now).wait
    decreases ops
  {
    if ops == [] {
      SameLater(limits, entry, cur, from, u);
      SameAfter(limits, entry, cur, u);
      AdmitsAfterWait(limits, entry, now, u);
    } else {
      var at := ops[0].at;
      SameLater(limits, entry, cur, from, at);
      SameAfter(limits, entry, cur, at);
      AdmitsAfterWait(limits, entry, now, at);
      ApplyOk(limits, cur, at, ops[0]);
      var next := Apply(limits, cur, ops[0]);
      if ops[0].Call? {
        RefusalCostsNothing(limits, cur, at, at);
        assert Answers(limits, cur, ops)[1..] == Answers(limits, next, ops[1..]);
      } else {
        SweepKeepsLevels(limits, cur, at, at);
        assert Answers(limits, cur, ops) == Answers(limits, next, ops[1..]);
      }
      RefusedUntil(limits, entry, next, now, at, ops[1..], u);
    }
  }

  // ----- The Retry-After header ------------------------------------------------------------------

  /** The wait as the limiter returns it: cut to whole nanoseconds. */
  function Nanos(wait: real): int {
    (wait * 1_000_000_000.0).Floor
  }

  datatype Verdict = Passed | TooMany(retryAfter: int)

  /** One request through the middleware; an empty key is not accounted for. */
  method Guard(limiter: Limiter, key: string, now: real) returns (verdict: Verdict)
    requires limiter.Valid()
    modifies limiter
    ensures limiter.Valid()
    ensures key == "" ==> limiter.keys == old(limiter.keys)
    ensures key != "" ==> limiter.keys == old(limiter.keys)[key := After(limiter.limits, old(limiter.Entry(key)), now)]
    ensures verdict.Passed? <==> key == "" || Outcome(limiter.limits, old(limiter.Entry(key)), now).allowed
    ensures verdict.TooMany? ==>
              verdict.retryAfter == HeaderSeconds(Outcome(limiter.limits, old(limiter.Entry(key)), now).wait)
  {
    if key == "" {
      return Passed;
    }
    var answer := limiter.Allow(key, now);
    if answer.allowed {
      return Passed;
    }
    var secs := (Nanos(answer.wait) + SECOND - 1) / SECOND;
    if secs < 1 {
      secs := 1;
    }
    return TooMany(secs);
  }

  function HeaderSeconds(wait: real): int {
    var secs := (Nanos(wait) + SECOND - 1) / SECOND;
    if secs < 1 then 1 else secs
  }

  /** The header is the least whole number of seconds, at least one, that falls short of the wait by less than a
    * nanosecond. */
  lemma {:induction false} HeaderMeans(wait: real)
    requires wait >= 0.0
    ensures var header := HeaderSeconds(wait);
            && header >= 1 && wait - header as real < 0.000000001
            && (header > 1 ==> wait - (header - 1) as real >= 0.000000001)
  {
    var n := Nanos(wait);
    assert n as real <= wait * 1_000_000_000.0 < n as real + 1.0;
    var secs := (n + SECOND - 1) / SECOND;
    assert secs * SECOND >= n > (secs - 1) * SECOND;
    assert secs as real * 1_000_000_000.0 >= n as real;
  }

  /** A client that waits as many seconds as it was told has waited long enough, unless the wait runs past a whole
    * number of seconds by less than a nanosecond; it is never told to wait a full second too long. */
  lemma {:induction false} HeaderCoversWait(wait: real)
    requires wait > 0.0
    ensures HeaderSeconds(wait) >= 1 && HeaderSeconds(wait) as real < wait + 1.0
    ensures HeaderSeconds(wait) as real >= wait
       <==> (Nanos(wait) < SECOND || Nanos(wait) % SECOND != 0 || Nanos(wait) as real == wait * 1_000_000_000.0)
  {
    var n := Nanos(wait);
    var q, r := n / SECOND, n % SECOND;
    assert n == q * SECOND + r;
    if r == 0 {
      assert (n + SECOND - 1) / SECOND == q;
    } else {
      assert (n + SECOND - 1) / SECOND == q + 1;
    }
  }

  const TIGHT: Limits := [Limit(3.000000001, 3)]

  /** What three calls at time 0 leave of a three-call limit. */
  lemma {:induction false} ThreeCalls() returns (entry: Option<BucketSet>)
    ensures EntryOk(TIGHT, entry, 0.0) && Levels(TIGHT, entry, 0.0) == [0.0]
    ensures entry == RunOn(TIGHT, None, [Call(0.0), Call(0.0), Call(0.0)])
  {
    entry := None;
    assert Levels(TIGHT, entry, 0.0)[0] == 3.0;
    var one := Spend(entry, 3.0);
    var two := Spend(one, 2.0);
    entry := Spend(two, 1.0);
    RunThree(None, one, two, entry);
  }

  lemma {:induction false} RunThree(a: Option<BucketSet>, b: Option<BucketSet>, c: Option<BucketSet>,
                                    d: Option<BucketSet>)
    requires Shaped(TIGHT, a) && Shaped(TIGHT, b) && Shaped(TIGHT, c)
    requires b == Apply(TIGHT, a, Call(0.0)) && c == Apply(TIGHT, b, Call(0.0)) && d == Apply(TIGHT, c, Call(0.0))
    ensures RunOn(TIGHT, a, [Call(0.0), Call(0.0), Call(0.0)]) == d
  {
    hide Apply;
    var call: Op := Call(0.0);
    assert [call, call, call][1..] == [call, call] && [call, call][1..] == [call] && [call][1..] == [];
    assert RunOn(TIGHT, c, [call]) == RunOn(TIGHT, d, []) == d;
    assert RunOn(TIGHT, b, [call, call]) == RunOn(TIGHT, c, [call]);
  }

  lemma {:induction false} Spend(entry: Option<BucketSet>, level: real) returns (next: Option<BucketSet>)
    requires EntryOk(TIGHT, entry, 0.0) && Levels(TIGHT, entry, 0.0)[0] == level && level >= 1.0
    ensures next == Apply(TIGHT, entry, Call(0.0))
    ensures EntryOk(TIGHT, next, 0.0) && Levels(TIGHT, next, 0.0) == [level - 1.0]
  {
    next := Apply(TIGHT, entry, Call(0.0));
    assert Admits(Levels(TIGHT, entry, 0.0));
    LevelAfter(TIGHT, entry, 0.0, 0);
    hide Levels, Apply, After;
    assert Levels(TIGHT, next, 0.0) == [Levels(TIGHT, next, 0.0)[0]];
  }

  /** The header can really fall short: with three calls allowed each 3.000000001 seconds, the fourth at once is told
    * to wait one second, and a client that waits exactly that long is refused again. */
  lemma {:induction false} HeaderFallsShort()
    ensures var entry := RunOn(TIGHT, None, [Call(0.0), Call(0.0), Call(0.0)]);
            var refusal := Outcome(TIGHT, entry, 0.0);
            && !refusal.allowed && HeaderSeconds(refusal.wait) == 1
            && !Outcome(TIGHT, Some(After(TIGHT, entry, 0.0)), 1.0).allowed
  {
    var entry := ThreeCalls();
    var levels := Levels(TIGHT, entry, 0.0);
    assert levels[0] == 0.0 && !Admits(levels);
    var wait := Outcome(TIGHT, entry, 0.0).wait;
    assert wait == WaitFor(TIGHT[0], 0.0) by {
      assert WaitUpTo(TIGHT, levels, 1) == WaitFor(TIGHT[0], levels[0]);
    }
    TightWait();
    RetryExact(TIGHT, entry, 0.0, [], 1.0);
    hide Levels, After;
    assert RunOn(TIGHT, Some(After(TIGHT, entry, 0.0)), []) == Some(After(TIGHT, entry, 0.0));
  }

  lemma {:induction false} TightWait()
    ensures WaitFor(TIGHT[0], 0.0) > 1.0 && HeaderSeconds(WaitFor(TIGHT[0], 0.0)) == 1
  {
    var wait := WaitFor(TIGHT[0], 0.0);
    var rate := Rate(TIGHT[0]);
    assert rate * 3.000000001 == 3.0 && wait * rate == 1.0;
    assert wait * 3.0 == 3.000000001;
    assert wait * 1_000_000_000.0 * 3.0 == 3_000_000_001.0;
    assert Nanos(wait) == 1_000_000_000;
  }
}
