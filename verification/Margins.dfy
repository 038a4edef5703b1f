/**
 The margin rule (docs/protocol.md, "The margin") from both sides. Module `Theorems` shows that a
 margin which covers the clocks excludes two believers; here, that any smaller margin does not,
 so that the bound is exact, and how the documented formula relates to it.
 */
module Margins {
  import opened Records
  import opened LeaseFold
  import opened Agents
  import opened Systems
  import opened Traces
  import opened Theorems
  import Invariants
  import Views

  /** No two participants ever believe at the same instant. */
  ghost predicate Exclusive(run: seq<Sys>) {
    forall i, h, h' :: 0 <= i < |run| && Believes(run[i], h) && Believes(run[i], h') ==> h == h'
  }

  /** What a trace ends in, as a run. */
  lemma BothBelieve(env: Env, t: Trace, h: string, h': string) returns (run: seq<Sys>)
    requires Possible(env, t) && h != h' && Believes(t.s, h) && Believes(t.s, h')
    ensures IsRun(env, run, t.steps) && !Exclusive(run)
  {
    run := RunOf(env, EMPTY, t.steps, t.s);
  }

  // ----- a run that uses up the whole margin -----

  /** The believer's clock may show a nanosecond less than its deadline when the earliest moment for a
      takeover comes: a claim stamped by a slow leader at its send, another by a fast one. */
  predicate CutsIn(env: Env) {
    env.rateNum * (env.ttl - env.Slack()) <= env.rateDen * (env.ttl - env.margin - 1)
  }

  function ClaimA(env: Env): Record {
    Record(0, 1, Claim, "a", 0, env.wireTtl)
  }

  function PostedA(env: Env): Node {
    Posted(env, "a", env.skew + 1, Joined(env, "a", 0, 0, env.skew + 1), 0)
  }

  function HolderA(env: Env): Node {
    ReadBy(env, "a", PostedA(env), ClaimA(env))
  }

  /** a sends at the earliest time whose stamp, by a slow leader, is 1. */
  lemma AcquiresA(env: Env)
    requires env.Valid() && 0 < env.wireTtl
    ensures var now, n := env.skew + 1, Joined(env, "a", 0, 0, env.skew + 1);
            Posts(env, "a", now, n) && PostedRecord(env, "a", now, n, 0, 1) == ClaimA(env)
    ensures PostedA(env).outbox.None? && PostedA(env).agent.nextOffset == 0
    ensures HolderA(env).clock == env.skew + 1
    ensures HolderA(env).agent.deadline == env.skew + 1 + (env.ttl - env.margin)
  {
  }

  /** b joins and claims before it reads anything. */
  function PostedB(env: Env, now: Time): Node {
    Posted(env, "b", now, Joined(env, "b", 0, 1, now), 1)
  }

  function ReadingB(env: Env, now: Time): Node {
    ReadBy(env, "b", PostedB(env, now), ClaimA(env))
  }

  function ClaimB(env: Env, now: Time): Record {
    Record(1, now + env.skew, Claim, "b", 0, env.wireTtl)
  }

  function HolderB(env: Env, now: Time): Node {
    ReadBy(env, "b", ReadingB(env, now), ClaimB(env, now))
  }

  lemma ClaimsB(env: Env, now: Time)
    requires env.Valid() && 0 < env.wireTtl && 0 < now
    ensures var n := Joined(env, "b", 0, 1, now);
            Posts(env, "b", now, n) && PostedRecord(env, "b", now, n, 1, now + env.skew) == ClaimB(env, now)
    ensures PostedB(env, now).outbox.None? && PostedB(env, now).agent.nextOffset == 0
    ensures ReadingB(env, now).outbox.None? && ReadingB(env, now).agent.nextOffset == 1
    ensures var n := ReadingB(env, now);
            n.clock == now && n.flight.Landed? && n.flight.at == 1 && n.agent.inflight == Some(Inflight(Claim, now, 1))
            && n.agent.view == Views.ViewState(env.ttl, true, State("a", 0, 1 + env.wireTtl), 1, 0, true, [])
  {
  }

  /** By the fast leader's clock the term of a is over, so b takes the lease. */
  lemma TakesOverB(env: Env, now: Time)
    requires env.Valid() && 0 < env.wireTtl && 0 < now && 1 + env.wireTtl <= now + env.skew
    ensures Believing(HolderB(env, now).agent, HolderB(env, now).clock)
  {
    ClaimsB(env, now);
    hide ReadingB;
  }

  /** How long a waits, in real time and on its own clock. */
  lemma SlowWait(env: Env) returns (dt: nat, tick: nat)
    requires env.Valid() && CutsIn(env)
    ensures Ticking(env, dt, tick) && tick < env.ttl - env.margin
    ensures env.wireTtl - 2 * env.skew <= dt
  {
    var n, d := env.rateNum, env.rateDen;
    dt := Max(0, env.wireTtl - 2 * env.skew);
    tick := Min(dt, env.ttl - env.margin - 1);
    assert n * dt <= d * tick by {
      assert n * dt <= d * dt;
      assert dt == 0 ==> n * dt == 0;
      assert 0 <= d * tick;
    }
    assert d * tick <= d * dt;
    assert (2 * d - n) * dt == d * dt + (d - n) * dt;
    assert 0 <= (d - n) * dt;
  }

  lemma Waits(env: Env, t: Trace, dt: nat, tick: nat) returns (v: Trace)
    requires Possible(env, t) && t.s.nodes.Keys == {"a"} && Ticking(env, dt, tick)
    ensures Possible(env, v) && v.s.now == t.s.now + dt && v.s.log == t.s.log
    ensures v.s.nodes == map["a" := t.s.nodes["a"].(clock := t.s.nodes["a"].clock + tick)]
  {
    v := Then(env, t, TimePasses(dt, map["a" := tick]), After(env, t.s, TimePasses(dt, map["a" := tick])));
  }

  lemma Opening(env: Env) returns (t: Trace)
    requires env.Valid() && 0 < env.wireTtl
    ensures Possible(env, t) && t.s.now == env.skew + 1 && t.s.log == [ClaimA(env)] && t.s.nodes == map["a" := HolderA(env)]
  {
    t := Trace([], EMPTY);
    assert Possible(env, t);
    AcquiresA(env);
    hide Possible, Joined, PostedRecord, ReadBy, HolderA, Posts;
    t := Then(env, t, TimePasses(env.skew, map[]), EMPTY.(now := env.skew + 1));
    t := ThenJoins(env, t, "a", 0, 0);
    t := ThenPosts(env, t, "a", 1);
    assert t.s.log == [ClaimA(env)];
    t := ThenReads(env, t, "a", 0);
  }

  lemma TakeOver(env: Env, t: Trace) returns (v: Trace)
    requires env.Valid() && 0 < env.wireTtl && Possible(env, t)
    requires 0 < t.s.now && 1 + env.wireTtl <= t.s.now + env.skew
    requires t.s.log == [ClaimA(env)] && t.s.nodes.Keys == {"a"}
    ensures Possible(env, v) && "a" in v.s.nodes && v.s.nodes["a"] == t.s.nodes["a"] && Believes(v.s, "b")
  {
    var now := t.s.now;
    ClaimsB(env, now);
    TakesOverB(env, now);
    hide Env.MarginCovers, Env.Valid, Possible, Joined, Posted, PostedRecord, ReadBy, Posts, HolderB;
    v := ThenJoins(env, t, "b", 0, 1);
    v := ThenPosts(env, v, "b", now + env.skew);
    assert v.s.log == [ClaimA(env), ClaimB(env, now)];
    v := ThenReads(env, v, "b", 0);
    v := ThenReads(env, v, "b", 1);
  }

  /** A margin any smaller fails: there is a run in which two participants believe at once. */
  lemma ThinMarginOverlaps(env: Env) returns (run: seq<Sys>, steps: seq<Step>)
    requires env.Valid() && 0 < env.wireTtl && CutsIn(env)
    ensures IsRun(env, run, steps) && !Exclusive(run)
  {
    var dt, tick := SlowWait(env);
    AcquiresA(env);
    hide HolderA, Possible;
    var t := Opening(env);
    t := Waits(env, t, dt, tick);
    t := TakeOver(env, t);
    assert Believes(t.s, "a") && Believes(t.s, "b");
    run := RunOf(env, EMPTY, t.steps, t.s);
    steps := t.steps;
  }

  // ----- the bound is exact -----

  ghost predicate AlwaysExclusive(env: Env) {
    forall run: seq<Sys>, steps: seq<Step> :: IsRun(env, run, steps) ==> Exclusive(run)
  }

  lemma CoveredIsExclusive(env: Env)
    requires Safe(env)
    ensures AlwaysExclusive(env)
  {
    forall run: seq<Sys>, steps: seq<Step> | IsRun(env, run, steps) ensures Exclusive(run) {
      forall i: int, h: string, h': string | 0 <= i < |run| && Believes(run[i], h) && Believes(run[i], h') ensures h == h' {
        MutualExclusion(env, run, steps, i, h, run[i].nodes[h].agent.epoch, h', run[i].nodes[h'].agent.epoch);
      }
    }
  }

  /** The documented formula, margin >= 2 * skew + ttl * drift, is enough. */
  lemma FormulaIsEnough(env: Env)
    requires env.Valid()
    requires env.Slack() * env.rateDen + env.ttl * (env.rateDen - env.rateNum) <= env.margin * env.rateDen
    ensures env.MarginCovers()
  {
    var n, d := env.rateNum, env.rateDen;
    assert env.Slack() * n <= env.Slack() * d;
    assert env.ttl * (d - n) == env.ttl * d - env.ttl * n;
    assert d * (env.ttl - env.margin) == env.ttl * d - env.margin * d;
    assert n * (env.ttl - env.Slack()) == env.ttl * n - env.Slack() * n;
  }

  lemma EqualRates(env: Env)
    requires env.Valid() && env.rateNum == env.rateDen
    ensures env.MarginCovers() <==> env.Slack() <= env.margin
    ensures CutsIn(env) <==> env.margin < env.Slack()
  {
    Invariants.Scale(env.rateDen, env.ttl - env.Slack(), env.ttl - env.margin);
    Invariants.Scale(env.rateDen, env.ttl - env.margin - 1, env.ttl - env.Slack());
  }

  /** With clients that keep time, a margin is safe in all runs exactly when it is at least twice the
      skew plus what the encoding takes off the TTL. */
  lemma MarginIsExact(env: Env)
    requires env.Valid() && env.Readable() && 0 < env.wireTtl && env.rateNum == env.rateDen
    ensures AlwaysExclusive(env) <==> 2 * env.skew + (env.ttl - env.wireTtl) <= env.margin
  {
    EqualRates(env);
    if env.Slack() <= env.margin {
      CoveredIsExclusive(env);
    } else {
      var run, steps := ThinMarginOverlaps(env);
    }
  }

  /** With clients that drift, the bound is within a nanosecond of exact: a margin that would not cover
      the clocks even with one nanosecond added fails in some run. */
  lemma MarginIsTight(env: Env)
    requires env.Valid() && env.Readable() && 0 < env.wireTtl
    ensures env.MarginCovers() ==> AlwaysExclusive(env)
    ensures AlwaysExclusive(env) ==> env.(margin := env.margin + 1).MarginCovers()
  {
    if env.MarginCovers() {
      CoveredIsExclusive(env);
    }
    if !env.(margin := env.margin + 1).MarginCovers() {
      assert env.(margin := env.margin + 1).Slack() == env.Slack();
      var run, steps := ThinMarginOverlaps(env);
    }
  }

  /** Nothing is wrong with the settings or the clocks. */
  predicate Sane(env: Env) {
    env.Valid() && env.Perfect() && env.MarginCovers() && 0 < env.wireTtl
  }

  lemma SaneBounds(env: Env)
    requires Sane(env)
    ensures env.renewEvery < env.ttl - env.margin <= env.wireTtl
  {
    EqualRates(env);
  }

  /** The freshness quiet needs, spelled out for clients that keep time: the last fetch may be as old as the
      margin, and as much older as the encoding takes off the TTL. */
  lemma FreshEnough(env: Env)
    requires env.Valid() && env.rateNum == env.rateDen
    ensures env.QuietCovers() <==> env.fetchAge <= env.margin + (env.ttl - env.wireTtl)
  {
    Invariants.Scale(env.rateDen, env.ttl + env.margin, env.wireTtl + env.fetchAge);
  }
}
