/**
 A release with a renew in flight, which the source's shutdown allows; and, with the runs of modules
 `Margins`, `Latecomers` and `StaleFetches`, exactly what it takes that no two participants ever believe at
 the same instant.
 */
module Counterexamples {
  import opened Records
  import opened Agents
  import opened Systems
  import opened Traces
  import opened Margins
  import Latecomers
  import StaleFetches

  function ClaimOf(env: Env, h: string, offset: int, stamp: Time): Record {
    Record(offset, stamp, Claim, h, 0, env.wireTtl)
  }

  /** A renew or release of the term that a opened at offset 0. */
  function OfTermA(env: Env, kind: Kind, offset: int, stamp: Time): Record {
    Record(offset, stamp, kind, "a", 0, env.wireTtl)
  }

  // ----- a release with a renew in flight -----

  /** When a sends its renew and quits, and when its term runs out. */
  function QuitTime(env: Env): Time { 1 + env.renewEvery }
  function LateTime(env: Env): Time { 1 + env.wireTtl }

  function FromA(env: Env, id: nat, kind: Kind): Msg {
    Msg(id, Record(0, ZERO_TIME, kind, "a", 0, env.ttl), Sent(QuitTime(env), QuitTime(env)))
  }

  /** a's renew is on the wire. */
  function TickedA(env: Env): Node {
    TickedBy(env, "a", QuitTime(env), HolderA(env).(clock := QuitTime(env)))
  }

  function QuitA(env: Env): Node {
    Resigned(env, "a", QuitTime(env), TickedA(env)).(clock := LateTime(env))
  }

  function LandedOnceA(env: Env): Node {
    LandedBy(QuitA(env), FromA(env, 1, Renew), 2)
  }

  /** a quits with its renew still under way; both records are on the wire. */
  lemma QuitsA(env: Env)
    requires Sane(env)
    ensures HolderA(env).clock == 1 && 1 <= QuitTime(env) <= LateTime(env)
    ensures HolderA(env).outbox.None? && HolderA(env).(clock := QuitTime(env)).agent.view.certain
    ensures TickedA(env).outbox.None? && ReleasedBy(env, "a", QuitTime(env), TickedA(env)).outbox.Some?
    ensures Resigned(env, "a", QuitTime(env), TickedA(env)).clock == QuitTime(env)
    ensures FromA(env, 1, Renew) in QuitA(env).wire && QuitA(env).outbox.None?
    ensures FromA(env, 2, Release) in LandedOnceA(env).wire && LandedOnceA(env).outbox.None?
  {
    SaneBounds(env);
  }

  function WatcherB(env: Env, now: Time): Node {
    ReadBy(env, "b", Joined(env, "b", 0, 0, 1), Margins.ClaimA(env)).(clock := now)
  }

  function PostedNextB(env: Env): Node {
    Posted(env, "b", LateTime(env), WatcherB(env, LateTime(env)), 1)
  }

  function NextB(env: Env): Node {
    ReadBy(env, "b", PostedNextB(env), ClaimOf(env, "b", 1, LateTime(env)))
  }

  lemma WatchesB(env: Env)
    ensures Joined(env, "b", 0, 0, 1).outbox.None? && Joined(env, "b", 0, 0, 1).agent.nextOffset == 0
    ensures ReadBy(env, "b", Joined(env, "b", 0, 0, 1), Margins.ClaimA(env)) == WatcherB(env, 1)
    ensures WatcherB(env, 1).clock == 1 && WatcherB(env, 1).(clock := QuitTime(env)) == WatcherB(env, QuitTime(env))
    ensures WatcherB(env, QuitTime(env)).clock == QuitTime(env)
    ensures WatcherB(env, QuitTime(env)).(clock := LateTime(env)) == WatcherB(env, LateTime(env))
  {
  }

  /** b read everything, waits for the term to run out, and rightly takes the lease. */
  lemma RightlyB(env: Env)
    requires Sane(env)
    ensures var now := LateTime(env);
            Posts(env, "b", now, WatcherB(env, now)) && PostedRecord(env, "b", now, WatcherB(env, now), 1, now) == ClaimOf(env, "b", 1, now)
    ensures PostedNextB(env).outbox.None?
  {
  }

  lemma NextBelieves(env: Env)
    requires Sane(env)
    ensures Believing(NextB(env).agent, NextB(env).clock)
  {
  }

  function TailC(env: Env): Node {
    ReadBy(env, "c", Joined(env, "c", 2, 4, LateTime(env)), OfTermA(env, Renew, 2, LateTime(env)))
  }

  function MisledC(env: Env): Node {
    ReadBy(env, "c", TailC(env), OfTermA(env, Release, 3, LateTime(env)))
  }

  function PostedC(env: Env): Node {
    Posted(env, "c", LateTime(env), MisledC(env), 4)
  }

  function FalseC(env: Env): Node {
    ReadBy(env, "c", PostedC(env), ClaimOf(env, "c", 4, LateTime(env)))
  }

  /** c sees only the tail: the rejected renew, vouched for by the rejected release. */
  lemma MisleadsC(env: Env)
    requires Sane(env)
    ensures var now := LateTime(env);
            Posts(env, "c", now, MisledC(env)) && PostedRecord(env, "c", now, MisledC(env), 4, now) == ClaimOf(env, "c", 4, now)
    ensures var v := MisledC(env).agent.view;
            Awaits(PostedC(env), LateTime(env), 4, 4, v) && PostedC(env).clock == LateTime(env)
            && v.ttl == env.ttl && v.certain && v.state.holder == ""
  {
  }

  lemma FalseBelieves(env: Env)
    requires Sane(env)
    ensures Believing(FalseC(env).agent, FalseC(env).clock)
  {
    MisleadsC(env);
    hide PostedC, MisledC;
    AwaitsBelieves(env, "c", PostedC(env), LateTime(env), 4, MisledC(env).agent.view, ClaimOf(env, "c", 4, LateTime(env)));
  }

  lemma ThenWatchesB(env: Env, t: Trace) returns (v: Trace)
    requires Possible(env, t) && t.s.now == 1 && t.s.log == [Margins.ClaimA(env)] && "b" !in t.s.nodes
    ensures Possible(env, v) && v.s == t.s.(nodes := t.s.nodes["b" := WatcherB(env, 1)])
  {
    WatchesB(env);
    hide Possible, Joined, ReadBy, WatcherB;
    v := ThenJoins(env, t, "b", 0, 0);
    v := ThenReads(env, v, "b", 0);
    assert v.s.nodes == t.s.nodes["b" := WatcherB(env, 1)];
  }

  lemma BothReady(env: Env) returns (t: Trace)
    requires Sane(env)
    ensures Possible(env, t) && t.s.now == QuitTime(env) && t.s.log == [Margins.ClaimA(env)] && t.s.nodes.Keys == {"a", "b"}
    ensures t.s.nodes["a"] == HolderA(env).(clock := QuitTime(env)) && t.s.nodes["b"] == WatcherB(env, QuitTime(env))
  {
    QuitsA(env);
    WatchesB(env);
    hide Possible, HolderA, WatcherB, Margins.ClaimA;
    t := Opening(env);
    t := ThenWatchesB(env, t);
    t := ThenWaits(env, t, QuitTime(env) - 1);
  }

  lemma QuitWithRenewUnderWay(env: Env) returns (t: Trace)
    requires Sane(env) && !env.wholeLog && !env.soloRelease
    ensures Possible(env, t) && t.s.now == LateTime(env) && t.s.log == [Margins.ClaimA(env)] && t.s.nodes.Keys == {"a", "b"}
    ensures t.s.nodes["a"] == QuitA(env) && t.s.nodes["b"] == WatcherB(env, LateTime(env))
  {
    QuitsA(env);
    WatchesB(env);
    hide Possible, HolderA, WatcherB, TickedA;
    t := BothReady(env);
    t := ThenQuitsA(env, t);
    t := ThenWaits(env, t, LateTime(env) - QuitTime(env));
  }

  lemma ThenQuitsA(env: Env, t: Trace) returns (v: Trace)
    requires Sane(env) && !env.soloRelease && Possible(env, t) && t.s.now == QuitTime(env)
    requires "a" in t.s.nodes && t.s.nodes["a"] == HolderA(env).(clock := QuitTime(env))
    ensures Possible(env, v) && v.s == t.s.(nodes := t.s.nodes["a" := Resigned(env, "a", QuitTime(env), TickedA(env))])
  {
    QuitsA(env);
    hide Sane, Possible, HolderA, Resigned, TickedBy, ReleasedBy;
    v := ThenTicks(env, t, "a");
    assert v.s.nodes["a"] == TickedA(env);
    v := ThenResigns(env, v, "a");
  }

  lemma TakesNextB(env: Env) returns (t: Trace)
    requires Sane(env) && !env.wholeLog && !env.soloRelease
    ensures Possible(env, t) && t.s.now == LateTime(env) && |t.s.log| == 2 && t.s.nodes.Keys == {"a", "b"}
    ensures t.s.nodes["a"] == QuitA(env) && t.s.nodes["b"] == NextB(env)
  {
    var now := LateTime(env);
    RightlyB(env);
    t := QuitWithRenewUnderWay(env);
    hide Env.MarginCovers, Env.Valid, Possible, ReadBy, QuitA, WatcherB, Posted, PostedRecord, Posts;
    t := ThenPosts(env, t, "b", now);
    t := ThenReads(env, t, "b", 1);
  }

  lemma ThenLandsBoth(env: Env, t: Trace) returns (v: Trace)
    requires Sane(env) && Possible(env, t) && t.s.now == LateTime(env) && |t.s.log| == 2 && "a" in t.s.nodes && t.s.nodes["a"] == QuitA(env)
    ensures Possible(env, v) && v.s.now == t.s.now && |v.s.log| == 4 && v.s.nodes.Keys == t.s.nodes.Keys
    ensures v.s.log[2] == OfTermA(env, Renew, 2, t.s.now) && v.s.log[3] == OfTermA(env, Release, 3, t.s.now)
    ensures forall h :: h in t.s.nodes && h != "a" ==> v.s.nodes[h] == t.s.nodes[h]
  {
    QuitsA(env);
    hide Possible, QuitA, LandedBy;
    v := ThenLands(env, t, "a", FromA(env, 1, Renew), t.s.now);
    assert v.s.nodes["a"] == LandedOnceA(env);
    v := ThenLands(env, v, "a", FromA(env, 2, Release), t.s.now);
  }

  lemma BothLandLate(env: Env) returns (t: Trace)
    requires Sane(env) && !env.wholeLog && !env.soloRelease
    ensures Possible(env, t) && t.s.now == LateTime(env) && |t.s.log| == 4
    ensures t.s.log[2] == OfTermA(env, Renew, 2, t.s.now) && t.s.log[3] == OfTermA(env, Release, 3, t.s.now)
    ensures t.s.nodes.Keys == {"a", "b"} && t.s.nodes["b"] == NextB(env)
  {
    hide Possible, QuitA, NextB;
    t := TakesNextB(env);
    t := ThenLandsBoth(env, t);
  }

  /** c joins at the tail. */
  lemma JoinsC(env: Env, t: Trace) returns (v: Trace)
    requires Sane(env) && !env.wholeLog && Possible(env, t) && t.s.now == LateTime(env) && "c" !in t.s.nodes
    requires |t.s.log| == 4 && t.s.log[2] == OfTermA(env, Renew, 2, t.s.now) && t.s.log[3] == OfTermA(env, Release, 3, t.s.now)
    ensures Possible(env, v) && v.s == t.s.(nodes := t.s.nodes["c" := MisledC(env)])
  {
    ReadsTailC(env);
    hide Possible, Sane, Joined, ReadBy, TailC, MisledC, OfTermA;
    assert 0 < LateTime(env) && env.Perfect();
    v := ThenJoins(env, t, "c", 2, 4);
    v := ThenReads(env, v, "c", 2);
    v := ThenReads(env, v, "c", 3);
    assert v.s.nodes == t.s.nodes["c" := MisledC(env)];
  }

  lemma ReadsTailC(env: Env)
    requires Sane(env)
    ensures env.Perfect() && 0 < LateTime(env)
    ensures var now := LateTime(env);
            var n := Joined(env, "c", 2, 4, now);
            n.outbox.None? && TailC(env).outbox.None?
            && ReadBy(env, "c", n, OfTermA(env, Renew, 2, now)) == TailC(env)
            && ReadBy(env, "c", TailC(env), OfTermA(env, Release, 3, now)) == MisledC(env)
  {
  }

  lemma FalselyC(env: Env, t: Trace) returns (v: Trace)
    requires Sane(env) && Possible(env, t) && t.s.now == LateTime(env) && |t.s.log| == 4
    requires "c" in t.s.nodes && t.s.nodes["c"] == MisledC(env)
    ensures Possible(env, v) && v.s.nodes == t.s.nodes["c" := FalseC(env)]
  {
    MisleadsC(env);
    hide Env.MarginCovers, Env.Valid, Possible, ReadBy, MisledC, Posts, Posted, PostedRecord;
    v := ThenPosts(env, t, "c", t.s.now);
    assert v.s.nodes["c"] == PostedC(env);
    v := ThenReads(env, v, "c", 4);
  }

  /** A release needs an empty flight. A participant that shuts down while its renew is under way may
      have both records land after its term ran out and another one began. The release then anchors
      the rejected renew for whoever sees only the tail of the log, who takes the lease to be free, claims it,
      and accepts its own claim beside the true holder. */
  lemma RashReleaseOverlaps(env: Env) returns (run: seq<Sys>, steps: seq<Step>)
    requires Sane(env) && !env.wholeLog && !env.soloRelease
    ensures IsRun(env, run, steps) && !Exclusive(run)
  {
    NextBelieves(env);
    FalseBelieves(env);
    var t := BothLandLate(env);
    assert |t.s.log| == 4 && "c" !in t.s.nodes;
    hide Env.MarginCovers, Env.Valid, Possible, MisledC, FalseC, NextB, Posts, Posted, PostedRecord, PostedC, PostedNextB, Joined, ReadBy;
    t := JoinsC(env, t);
    t := FalselyC(env, t);
    run := BothBelieve(env, t, "b", "c");
    steps := t.steps;
  }

  // ----- exactly what exclusion takes -----

  /** With clients that keep time, no run has two believers exactly when the margin covers the skew and what
      the encoding takes off the TTL, and besides either every reader sees the whole log, or brokers
      agree on the time, releases wait for an empty flight and quiet for a fetch that is fresh enough.
      (A belief that lasts a single nanosecond is too short to be renewed and is left out.) */
  lemma ExclusionIsExact(env: Env)
    requires env.Valid() && env.rateNum == env.rateDen && 0 < env.wireTtl && env.margin + 1 < env.ttl
    ensures AlwaysExclusive(env) <==> env.MarginCovers() && env.Readable()
  {
    EqualRates(env);
    if !env.MarginCovers() {
      var run, steps := ThinMarginOverlaps(env);
    } else if env.Readable() {
      CoveredIsExclusive(env);
    } else if 0 < env.skew {
      var run, steps := Latecomers.LateJoinerOverlaps(env);
    } else if !env.soloRelease {
      var run, steps := RashReleaseOverlaps(env);
    } else {
      var run, steps := StaleFetches.StaleQuietOverlaps(env);
    }
  }
}
