/** The SYN token bucket (rl_take in bpf/rivora_common.h), in 64-bit arithmetic, and what it admits
    over whole runs. */
module TokenBucket {
  import opened Common

  const U64 := 0x1_0000_0000_0000_0000
  const MAX_ELAPSED_NS := 10_000_000_000
  const NS_PER_SEC := 1_000_000_000

  datatype RlConfig = RlConfig(rate: nat, burst: nat)
  datatype Bucket = Bucket(tokens: nat, last: nat)

  /** How long the bucket refills for: the clock may step back, and ten seconds is the most. */
  function Elapsed(last: nat, now: nat): nat {
    if now <= last then 0 else if now - last > MAX_ELAPSED_NS then MAX_ELAPSED_NS else now - last
  }

  /** What is in the bucket at now, before a token is taken; products and sums wrap at 64 bits. */
  function Refilled(cfg: RlConfig, cur: Option<Bucket>, now: nat): (tokens: nat)
    ensures tokens <= cfg.burst
  {
    match cur
    case None => cfg.burst
    case Some(b) =>
      var tokens := (b.tokens + Elapsed(b.last, now) * cfg.rate % U64 / NS_PER_SEC) % U64;
      if tokens > cfg.burst then cfg.burst else tokens
  }

  ghost predicate Admits(cfg: RlConfig, cur: Option<Bucket>, now: nat) {
    Refilled(cfg, cur, now) >= 1
  }

  ghost function Left(cfg: RlConfig, cur: Option<Bucket>, now: nat): Bucket {
    Bucket(Refilled(cfg, cur, now) - (if Admits(cfg, cur, now) then 1 else 0), now)
  }

  /** rl_take: a token goes with every admitted SYN and with no other. */
  method Take(cfg: RlConfig, cur: Option<Bucket>, now: nat) returns (out: Bucket, exceeded: bool)
    requires cfg.rate < U64 && cfg.burst < U64 && now < U64
    ensures out == Left(cfg, cur, now) && exceeded == !Admits(cfg, cur, now)
    ensures out.tokens <= cfg.burst && out.last == now
    ensures out.tokens == Refilled(cfg, cur, now) - if exceeded then 0 else 1
  {
    var tokens, last := cfg.burst, now;
    if cur.Some? {
      tokens, last := cur.value.tokens, cur.value.last;
    }
    var elapsed := if now > last then now - last else 0;
    if elapsed > MAX_ELAPSED_NS {
      elapsed := MAX_ELAPSED_NS;
    }
    if cur.None? {
      FreshBucket(elapsed, cfg.rate, tokens);
    }
    tokens := (tokens + elapsed * cfg.rate % U64 / NS_PER_SEC) % U64;
    if tokens > cfg.burst {
      tokens := cfg.burst;
    }
    exceeded := tokens < 1;
    if !exceeded {
      tokens := tokens - 1;
    }
    out := Bucket(tokens, now);
  }

  lemma FreshBucket(elapsed: nat, rate: nat, tokens: nat)
    ensures elapsed == 0 && tokens < U64 ==> (tokens + elapsed * rate % U64 / NS_PER_SEC) % U64 == tokens
  {
  }

  // ---- Runs.

  ghost predicate Sorted(times: seq<nat>) {
    forall i, j :: 0 <= i < j < |times| ==> times[i] <= times[j]
  }

  /** How many of the SYNs at these times are admitted, starting from cur. */
  ghost function Admitted(cfg: RlConfig, cur: Option<Bucket>, times: seq<nat>): nat
    decreases |times|
  {
    if times == [] then 0
    else (if Admits(cfg, cur, times[0]) then 1 else 0) + Admitted(cfg, Some(Left(cfg, cur, times[0])), times[1..])
  }

  /** Full refills in a time, were the bucket bottomless. */
  ghost function Earned(cfg: RlConfig, ns: nat): nat {
    cfg.rate * ns / NS_PER_SEC
  }

  /** Wrap-around and the ten-second cap only ever refill less. */
  lemma RefillBound(cfg: RlConfig, b: Bucket, now: nat)
    requires b.last <= now
    ensures Refilled(cfg, Some(b), now) <= b.tokens + Earned(cfg, now - b.last)
  {
    var e := Elapsed(b.last, now);
    ProductGrows(cfg.rate, e, now - b.last);
    WrapShrinks(e * cfg.rate);
    QuotientGrows(e * cfg.rate % U64, cfg.rate * (now - b.last));
    WrapShrinks(b.tokens + e * cfg.rate % U64 / NS_PER_SEC);
  }

  lemma ProductGrows(r: nat, x: nat, y: nat)
    requires x <= y
    ensures x * r <= r * y
  {
  }

  lemma WrapShrinks(x: nat)
    ensures x % U64 <= x
  {
  }

  lemma QuotientGrows(x: nat, y: nat)
    requires x <= y
    ensures x / NS_PER_SEC <= y / NS_PER_SEC
  {
  }

  /** Earning piecewise never earns more than earning in one go: every call drops a fraction. */
  lemma EarnedAdds(cfg: RlConfig, x: nat, y: nat)
    ensures Earned(cfg, x) + Earned(cfg, y) <= Earned(cfg, x + y)
  {
    var a, b := cfg.rate * x, cfg.rate * y;
    assert cfg.rate * (x + y) == a + b;
    FloorAdds(a, b);
  }

  lemma FloorAdds(a: nat, b: nat)
    ensures a / NS_PER_SEC + b / NS_PER_SEC <= (a + b) / NS_PER_SEC
  {
  }

  lemma {:induction false} SpentBound(cfg: RlConfig, b: Bucket, times: seq<nat>)
    requires times != [] && Sorted(times) && b.last <= times[0]
    ensures Admitted(cfg, Some(b), times) <= b.tokens + Earned(cfg, times[|times| - 1] - b.last)
    decreases |times|
  {
    var now, end, rest := times[0], times[|times| - 1], times[1..];
    var b' := Left(cfg, Some(b), now);
    RefillBound(cfg, b, now);
    if rest != [] {
      assert rest[|rest| - 1] == end && Sorted(rest) && now <= rest[0];
      SpentBound(cfg, b', rest);
      EarnedAdds(cfg, now - b.last, end - now);
      hide Earned, Refilled;
    } else {
      assert Admitted(cfg, Some(b'), rest) == 0;
    }
  }

  /** Whatever state the bucket is in, the SYNs admitted from then on number at most the burst
      plus what the rate earns from the first to the last. */
  lemma {:induction false} WindowBound(cfg: RlConfig, cur: Option<Bucket>, times: seq<nat>)
    requires times != [] && Sorted(times)
    ensures Admitted(cfg, cur, times) <= cfg.burst + Earned(cfg, times[|times| - 1] - times[0])
  {
    hide Earned;
    var now, rest := times[0], times[1..];
    var b := Left(cfg, cur, now);
    assert b.tokens + (if Admits(cfg, cur, now) then 1 else 0) <= cfg.burst;
    if rest != [] {
      assert rest[|rest| - 1] == times[|times| - 1] && Sorted(rest) && now <= rest[0];
      SpentBound(cfg, b, rest);
      hide Refilled;
    } else {
      assert Admitted(cfg, Some(b), rest) == 0;
    }
  }

  lemma {:induction false} AdmittedSplits(cfg: RlConfig, cur: Option<Bucket>, before: seq<nat>, after: seq<nat>)
    returns (mid: Option<Bucket>)
    ensures Admitted(cfg, cur, before + after) == Admitted(cfg, cur, before) + Admitted(cfg, mid, after)
    ensures before == [] ==> mid == cur
    ensures before != [] ==> mid.Some? && mid.value.tokens <= cfg.burst && mid.value.last == before[|before| - 1]
    decreases |before|
  {
    hide Admits, Refilled;
    if before == [] {
      assert before + after == after;
      mid := cur;
    } else {
      assert (before + after)[0] == before[0] && (before + after)[1..] == before[1..] + after;
      LeftWithin(cfg, cur, before[0]);
      mid := AdmittedSplits(cfg, Some(Left(cfg, cur, before[0])), before[1..], after);
    }
  }

  /** The bound operators configure: in any window of any run, however often the source sends and
      even if the configured numbers overflow 64 bits, at most the burst plus what the rate earns
      over the window is admitted. */
  lemma {:induction false} AnyWindow(cfg: RlConfig, cur: Option<Bucket>, times: seq<nat>, i: nat, j: nat)
    requires i < j <= |times| && Sorted(times)
    ensures Admitted(cfg, cur, times[..j]) - Admitted(cfg, cur, times[..i]) <= cfg.burst + Earned(cfg,
        times[j - 1] - times[i])
  {
    hide Admitted, Earned, Sorted;
    SortedSlice(times, i, j);
    CutWindow(cfg, cur, times[..i], times[i..j]);
  }

  lemma CutWindow(cfg: RlConfig, cur: Option<Bucket>, before: seq<nat>, window: seq<nat>)
    requires window != [] && Sorted(window)
    ensures Admitted(cfg, cur, before + window) - Admitted(cfg, cur, before) <= cfg.burst + Earned(cfg,
        window[|window| - 1] - window[0])
  {
    hide Admitted, Earned;
    var mid := AdmittedSplits(cfg, cur, before, window);
    WindowBound(cfg, mid, window);
  }

  lemma SortedSlice(times: seq<nat>, i: nat, j: nat)
    requires i < j <= |times| && Sorted(times)
    ensures Sorted(times[i..j]) && times[i] <= times[j - 1] && times[i..j][0] == times[i]
        && times[i..j][j - i - 1] == times[j - 1]
    ensures times[..i] + times[i..j] == times[..j]
  {
  }

  lemma LeftWithin(cfg: RlConfig, cur: Option<Bucket>, now: nat)
    ensures Left(cfg, cur, now).tokens <= cfg.burst && Left(cfg, cur, now).last == now
  {
  }

  // ---- Overflow.

  /** No step of rl_take wraps, whatever the bucket and however long it was idle. */
  ghost predicate NeverWraps(cfg: RlConfig) {
    forall tokens: nat, elapsed: nat :: tokens <= cfg.burst && elapsed <= MAX_ELAPSED_NS ==>
      StepFits(cfg, tokens, elapsed)
  }

  ghost predicate StepFits(cfg: RlConfig, tokens: nat, elapsed: nat) {
    elapsed * cfg.rate < U64 && tokens + elapsed * cfg.rate / NS_PER_SEC < U64
  }

  /** The exact limits on a configuration for the arithmetic to stay within 64 bits. */
  lemma NeverWrapsIff(cfg: RlConfig)
    ensures NeverWraps(cfg) <==> cfg.rate * MAX_ELAPSED_NS < U64 && cfg.burst + 10 * cfg.rate < U64
  {
    hide StepFits;
    FullRefillFits(cfg);
    if NeverWraps(cfg) {
      assert StepFits(cfg, cfg.burst, MAX_ELAPSED_NS);
    }
    if StepFits(cfg, cfg.burst, MAX_ELAPSED_NS) {
      forall tokens: nat, elapsed: nat | tokens <= cfg.burst && elapsed <= MAX_ELAPSED_NS
        ensures StepFits(cfg, tokens, elapsed)
      {
        SmallerFits(cfg, tokens, elapsed);
      }
    }
  }

  lemma FullRefillFits(cfg: RlConfig)
    ensures StepFits(cfg, cfg.burst, MAX_ELAPSED_NS) <==>
        cfg.rate * MAX_ELAPSED_NS < U64 && cfg.burst + 10 * cfg.rate < U64
  {
  }

  lemma SmallerFits(cfg: RlConfig, tokens: nat, elapsed: nat)
    requires StepFits(cfg, cfg.burst, MAX_ELAPSED_NS) && tokens <= cfg.burst && elapsed <= MAX_ELAPSED_NS
    ensures StepFits(cfg, tokens, elapsed)
  {
    var big, small := MAX_ELAPSED_NS * cfg.rate, elapsed * cfg.rate;
    ProductGrows(cfg.rate, elapsed, MAX_ELAPSED_NS);
    assert small <= big;
    QuotientGrows(small, big);
  }

  // ---- What it must admit.

  /** Without overflow the bucket holds what was in it plus what was earned since, up to ten seconds' worth
      and to the burst. */
  lemma RefilledIs(cfg: RlConfig, b: Bucket, now: nat)
    requires NeverWraps(cfg) && b.tokens <= cfg.burst
    ensures var earned := b.tokens + Earned(cfg, Elapsed(b.last, now));
            Refilled(cfg, Some(b), now) == if earned > cfg.burst then cfg.burst else earned
  {
    var e := Elapsed(b.last, now);
    assert StepFits(cfg, b.tokens, e);
    NoWrap(e * cfg.rate);
    NoWrap(b.tokens + e * cfg.rate / NS_PER_SEC);
    assert e * cfg.rate == cfg.rate * e;
  }

  lemma NoWrap(x: nat)
    ensures x < U64 ==> x % U64 == x
  {
  }

  ghost function Least(x: nat, y: nat): nat {
    if x < y then x else y
  }

  /** A source's first SYNs are admitted up to the burst, however fast they come. */
  lemma {:induction false} BurstIsAdmitted(cfg: RlConfig, cur: Option<Bucket>, times: seq<nat>)
    requires NeverWraps(cfg) && (cur.Some? ==> cur.value.tokens <= cfg.burst)
    ensures Admitted(cfg, cur, times) >= Least(|times|, if cur.Some? then cur.value.tokens else cfg.burst)
    decreases |times|
  {
    if times != [] {
      var now := times[0];
      if cur.Some? {
        RefilledIs(cfg, cur.value, now);
      }
      hide NeverWraps, Refilled, Earned;
      BurstIsAdmitted(cfg, Some(Left(cfg, cur, now)), times[1..]);
    }
  }

  /** Long enough after one SYN for the rate to earn the next. */
  ghost predicate Spaced(cfg: RlConfig, last: nat, now: nat) {
    last <= now && cfg.rate * (now - last) >= NS_PER_SEC
  }

  lemma SpacedIsAdmitted(cfg: RlConfig, b: Bucket, now: nat)
    requires NeverWraps(cfg) && cfg.burst >= 1 && b.tokens <= cfg.burst && Spaced(cfg, b.last, now)
    ensures Admits(cfg, Some(b), now)
  {
    RefilledIs(cfg, b, now);
    hide NeverWraps, Refilled;
    assert cfg.rate == 0 ==> cfg.rate * (now - b.last) == 0;
    ProductGrows(MAX_ELAPSED_NS, 1, cfg.rate);
    assert cfg.rate * Elapsed(b.last, now) >= NS_PER_SEC;
    QuotientGrows(NS_PER_SEC, cfg.rate * Elapsed(b.last, now));
  }

  /** A source that keeps to the rate is never limited. */
  lemma {:induction false} PacedIsAdmitted(cfg: RlConfig, cur: Option<Bucket>, times: seq<nat>)
    requires NeverWraps(cfg) && cfg.burst >= 1 && (cur.Some? ==> cur.value.tokens <= cfg.burst)
    requires cur.Some? && times != [] ==> Spaced(cfg, cur.value.last, times[0])
    requires forall i: nat :: i + 1 < |times| ==> Spaced(cfg, times[i], times[i + 1])
    ensures Admitted(cfg, cur, times) == |times|
    decreases |times|
  {
    if times != [] {
      var now, rest := times[0], times[1..];
      if cur.Some? {
        SpacedIsAdmitted(cfg, cur.value, now);
      }
      LeftWithin(cfg, cur, now);
      hide NeverWraps, Refilled, Spaced;
      forall i: nat | i + 1 < |rest|
        ensures Spaced(cfg, rest[i], rest[i + 1])
      {
        assert rest[i] == times[i + 1] && rest[i + 1] == times[i + 2];
        assert Spaced(cfg, times[i + 1], times[i + 1 + 1]);
      }
      assert rest != [] ==> Spaced(cfg, times[0], times[0 + 1]);
      PacedIsAdmitted(cfg, Some(Left(cfg, cur, now)), rest);
    }
  }
}
