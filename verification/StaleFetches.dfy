/**
 Quiet on a stale fetch. A late joiner that is cut off without an error (`connected` stays true and the
 stored end of the log stays where it was) declares the lease free although somebody renewed it. If its
 last fetch can be older than the margin allows, there is a run in which it claims, accepts its own claim, and
 believes beside the true holder.

 a claims at time 1 and its renew lands at the last moment, right after b's last fetch. If b's silence is
 over before the renewed term is, b claims within that term, and d takes over rightly when it ends.
 Otherwise d takes over first and goes on renewing; what keeps b blind to d is c's claim, which lands within
 a's term: the whole log rejects it and b, once it reads it, does not.
 */
module StaleFetches {
  import opened Records
  import opened LeaseFold
  import opened Agents
  import opened Systems
  import opened Traces
  import opened Margins
  import Invariants
  import Views

  /** b is quiet from time 1 to here. */
  function QuietTime(env: Env): Time { 1 + env.ttl + env.margin }

  /** Readers may join late, and the last fetch may be too old. */
  predicate Stale(env: Env) {
    Sane(env) && env.margin + 1 < env.ttl && !env.wholeLog && !env.QuietCovers()
  }

  lemma StaleBounds(env: Env)
    requires Stale(env)
    ensures 1 + env.renewEvery <= env.wireTtl && 2 <= env.ttl - env.margin <= env.wireTtl <= env.ttl
    ensures QuietTime(env) - env.fetchAge <= env.wireTtl < QuietTime(env)
    ensures env.skew == 0 && env.Perfect()
  {
    SaneBounds(env);
    Invariants.Scale(env.rateDen, env.ttl + env.margin, env.wireTtl + env.fetchAge);
  }

  function ClaimOf(env: Env, h: string, offset: int, stamp: Time): Record {
    Record(offset, stamp, Claim, h, 0, env.wireTtl)
  }

  function RenewOf(env: Env, h: string, epoch: int, offset: int, stamp: Time): Record {
    Record(offset, stamp, Renew, h, epoch, env.wireTtl)
  }

  // ----- a holder that goes on renewing -----

  /** h holds epoch e by a record sent and landed at time `sent`, and has read everything up to offset k. */
  ghost predicate Keeps(env: Env, n: Node, h: string, e: int, sent: Time, k: int) {
    var a := n.agent;
    && n.outbox.None? && n.flight == NoFlight && a.inflight.None? && a.ownOutcomes == map[]
    && h != "" && ZERO_TIME < sent && 0 <= e <= k && a.epoch == e && a.deadline == sent + (env.ttl - env.margin) && a.lastSend <= sent
    && a.nextOffset == k + 1 && a.view.ttl == env.ttl && a.view.certain && a.view.lastOffset == k && a.view.clock <= sent
    && a.view.state.holder == h && a.view.state.epoch == e && sent + env.wireTtl <= a.view.state.expires
  }

  lemma KeeperPosts(env: Env, n: Node, h: string, e: int, sent: Time, k: int)
    requires Sane(env) && Keeps(env, n, h, e, sent, k)
    requires sent < n.clock && sent + env.renewEvery <= n.clock < sent + (env.ttl - env.margin)
    ensures Posts(env, h, n.clock, n) && PostedRecord(env, h, n.clock, n, k + 1, n.clock) == RenewOf(env, h, e, k + 1, n.clock)
    ensures var p := Posted(env, h, n.clock, n, k + 1);
            p.outbox.None? && p.clock == n.clock && p.flight.Landed? && p.flight.at == k + 1
            && p.agent == n.agent.(inflight := Some(Inflight(Renew, n.clock, k + 1)), lastSend := n.clock)
  {
  }

  lemma KeeperReads(env: Env, n: Node, p: Node, h: string, e: int, sent: Time, k: int)
    requires Sane(env) && Keeps(env, n, h, e, sent, k) && sent < n.clock < sent + (env.ttl - env.margin)
    requires p.outbox.None? && p.clock == n.clock && p.flight.Landed? && p.flight.at == k + 1
    requires p.agent == n.agent.(inflight := Some(Inflight(Renew, n.clock, k + 1)), lastSend := n.clock)
    ensures var n' := ReadBy(env, h, p, RenewOf(env, h, e, k + 1, n.clock));
            Keeps(env, n', h, e, n.clock, k + 1) && n'.clock == n.clock
  {
    SaneBounds(env);
  }

  /** The log from offset 4 on holds nothing but d's renewals. */
  ghost predicate OnlyRenews(env: Env, log: seq<Record>) {
    forall i {:trigger log[i]} :: 4 <= i < |log| ==> log[i] == RenewOf(env, "d", 3, i, log[i].timestamp)
  }

  /** d keeps its lease while b does nothing; `sent` is when d last renewed. */
  ghost predicate Meanwhile(env: Env, t: Trace, sent: Time, b: Node, tail: seq<Record>) {
    && Possible(env, t) && "d" in t.s.nodes && "b" in t.s.nodes && sent <= t.s.now < sent + (env.ttl - env.margin)
    && 4 <= |t.s.log| && t.s.log[..4] == tail && OnlyRenews(env, t.s.log)
    && Keeps(env, t.s.nodes["d"], "d", 3, sent, |t.s.log| - 1) && t.s.nodes["d"].clock == t.s.now
    && t.s.nodes["b"] == b.(clock := t.s.now)
  }

  lemma MeanwhileWaits(env: Env, t: Trace, sent: Time, b: Node, tail: seq<Record>, dt: nat) returns (v: Trace)
    requires Sane(env) && Meanwhile(env, t, sent, b, tail) && t.s.now + dt < sent + (env.ttl - env.margin)
    ensures Meanwhile(env, v, sent, b, tail) && v.s.now == t.s.now + dt
  {
    v := ThenWaits(env, t, dt);
    hide Possible;
    assert Keeps(env, v.s.nodes["d"], "d", 3, sent, |v.s.log| - 1);
  }

  lemma MeanwhileRenews(env: Env, t: Trace, sent: Time, b: Node, tail: seq<Record>) returns (v: Trace)
    requires Sane(env) && Meanwhile(env, t, sent, b, tail) && sent < t.s.now && sent + env.renewEvery <= t.s.now
    ensures Meanwhile(env, v, t.s.now, b, tail) && v.s.now == t.s.now
  {
    var now, n, k := t.s.now, t.s.nodes["d"], |t.s.log| - 1;
    KeeperPosts(env, n, "d", 3, sent, k);
    KeeperReads(env, n, Posted(env, "d", now, n, k + 1), "d", 3, sent, k);
    assert env.Perfect() && 0 < env.ttl - env.margin;
    hide Sane, Possible, Posted, PostedRecord, ReadBy, Posts, Keeps;
    v := ThenPosts(env, t, "d", now);
    assert v.s.log[k + 1] == RenewOf(env, "d", 3, k + 1, now) && v.s.log[..4] == t.s.log[..4];
    v := ThenReads(env, v, "d", k + 1);
  }

  /** A holder can go on renewing for as long as it likes. */
  lemma {:induction false} MeanwhileGoesOn(env: Env, t: Trace, sent: Time, b: Node, tail: seq<Record>, until: Time)
    returns (v: Trace, last: Time)
    requires Stale(env) && Meanwhile(env, t, sent, b, tail) && t.s.now <= until
    ensures Meanwhile(env, v, last, b, tail) && v.s.now == until
    decreases until - sent
  {
    var end := sent + (env.ttl - env.margin);
    StaleBounds(env);
    SaneBounds(env);
    hide Meanwhile, Stale;
    if until < end {
      v := MeanwhileWaits(env, t, sent, b, tail, until - t.s.now);
      last := sent;
    } else {
      v := MeanwhileWaits(env, t, sent, b, tail, end - 1 - t.s.now);
      v := MeanwhileRenews(env, v, sent, b, tail);
      v, last := MeanwhileGoesOn(env, v, end - 1, b, tail, until);
    }
  }

  // ----- a renews at the last moment -----

  function RenewTime(env: Env): Time { 1 + env.renewEvery }

  function RenewalA(env: Env): Msg {
    Msg(1, Record(0, ZERO_TIME, Renew, "a", 0, env.ttl), Sent(RenewTime(env), RenewTime(env)))
  }

  function SentA(env: Env): Node {
    TickedBy(env, "a", RenewTime(env), HolderA(env).(clock := RenewTime(env)))
  }

  lemma SendsA(env: Env)
    requires Stale(env)
    ensures HolderA(env).clock == 1 && HolderA(env).outbox.None? && HolderA(env).(clock := RenewTime(env)).agent.view.certain
    ensures SentA(env).clock == RenewTime(env) && SentA(env).outbox.None?
    ensures RenewalA(env) in SentA(env).(clock := env.wireTtl).wire
  {
    StaleBounds(env);
  }

  /** c claims at once, before it reads anything, and its record is slow. */
  function JoinedC(env: Env): Node { Joined(env, "c", 0, 1, 1) }
  function SentC(env: Env): Node { TickedBy(env, "c", 1, JoinedC(env)) }
  function ClaimC(env: Env): Msg { Msg(0, Record(0, ZERO_TIME, Claim, "c", 0, env.ttl), Sent(1, 1)) }

  lemma SendsC(env: Env)
    requires Stale(env)
    ensures JoinedC(env).outbox.None? && JoinedC(env).agent.view.certain && SentC(env).outbox.None? && SentC(env).clock == 1
    ensures forall now :: SentC(env).(clock := now).outbox.None? && ClaimC(env) in SentC(env).(clock := now).wire
  {
  }

  /** b, as of its last fetch. */
  function JoinedB(env: Env): Node { Joined(env, "b", 1, 1, 1) }
  function FetchedB(env: Env): Node {
    var n := JoinedB(env).(clock := env.wireTtl);
    n.(agent := Fetched(n.agent, n.clock, 1), fetchedAt := env.wireTtl)
  }

  lemma TheThree(env: Env) returns (t: Trace)
    requires Stale(env)
    ensures Possible(env, t) && t.s.now == 1 && t.s.log == [Margins.ClaimA(env)] && t.s.nodes.Keys == {"a", "b", "c"}
    ensures t.s.nodes["a"] == HolderA(env) && t.s.nodes["b"] == JoinedB(env) && t.s.nodes["c"] == SentC(env)
  {
    StaleBounds(env);
    SendsC(env);
    hide Possible, Joined, TickedBy, HolderA, Stale, JoinedC;
    t := Opening(env);
    t := ThenJoins(env, t, "b", 1, 1);
    t := ThenJoins(env, t, "c", 0, 1);
    assert t.s.nodes["c"] == JoinedC(env);
    t := ThenTicks(env, t, "c");
  }

  lemma ThenTicksA(env: Env, t: Trace) returns (v: Trace)
    requires Stale(env) && Possible(env, t) && t.s.now == 1 && t.s.nodes.Keys == {"a", "b", "c"}
    requires t.s.nodes["a"] == HolderA(env) && t.s.nodes["b"].clock == 1 && t.s.nodes["c"].clock == 1
    ensures Possible(env, v) && v.s.now == RenewTime(env) && v.s.nodes.Keys == {"a", "b", "c"} && v.s.log == t.s.log
    ensures v.s.nodes["a"] == SentA(env) && forall h :: h in {"b", "c"} ==> v.s.nodes[h] == t.s.nodes[h].(clock := RenewTime(env))
  {
    SendsA(env);
    hide Possible, TickedBy, HolderA;
    v := ThenWaits(env, t, env.renewEvery);
    v := ThenTicks(env, v, "a");
  }

  lemma ThenSendsA(env: Env, t: Trace) returns (v: Trace)
    requires Stale(env) && Possible(env, t) && t.s.now == 1 && t.s.log == [Margins.ClaimA(env)] && t.s.nodes.Keys == {"a", "b", "c"}
    requires t.s.nodes["a"] == HolderA(env) && t.s.nodes["b"] == JoinedB(env) && t.s.nodes["c"] == SentC(env)
    ensures Possible(env, v) && v.s.now == env.wireTtl && v.s.nodes.Keys == {"a", "b", "c"} && v.s.log == t.s.log
    ensures v.s.nodes["a"] == SentA(env).(clock := env.wireTtl)
    ensures v.s.nodes["b"] == JoinedB(env).(clock := env.wireTtl) && v.s.nodes["c"] == SentC(env).(clock := env.wireTtl)
  {
    assert JoinedB(env).clock == 1 && SentC(env).clock == 1 by { SendsC(env); }
    assert SentA(env).clock == RenewTime(env) by { SendsA(env); }
    assert RenewTime(env) <= env.wireTtl && env.Valid() by { StaleBounds(env); }
    hide Possible, HolderA, Stale, SentA, SentC, JoinedB, Margins.ClaimA;
    v := ThenTicksA(env, t);
    v := ThenWaits(env, v, env.wireTtl - RenewTime(env));
  }

  lemma ThenRenewsLate(env: Env, t: Trace) returns (v: Trace)
    requires Stale(env) && Possible(env, t) && t.s.now == env.wireTtl && t.s.log == [Margins.ClaimA(env)]
    requires t.s.nodes.Keys == {"a", "b", "c"} && t.s.nodes["a"] == SentA(env).(clock := env.wireTtl)
    requires t.s.nodes["b"] == JoinedB(env).(clock := env.wireTtl)
    ensures Possible(env, v) && v.s.now == env.wireTtl && v.s.nodes.Keys == {"a", "b", "c"} && v.s.nodes["c"] == t.s.nodes["c"]
    ensures v.s.log == [Margins.ClaimA(env), RenewOf(env, "a", 0, 1, env.wireTtl)] && v.s.nodes["b"] == FetchedB(env)
  {
    StaleBounds(env);
    SendsA(env);
    assert JoinedB(env).(clock := env.wireTtl).outbox.None?;
    hide Possible, Stale, JoinedB, SentA;
    v := ThenFetches(env, t, "b");
    assert v.s.nodes["b"] == FetchedB(env);
    v := ThenLands(env, v, "a", RenewalA(env), env.wireTtl);
  }

  /** Both cases start here. */
  lemma CutOff(env: Env) returns (t: Trace)
    requires Stale(env)
    ensures Possible(env, t) && t.s.now == env.wireTtl && t.s.nodes.Keys == {"a", "b", "c"}
    ensures t.s.log == [Margins.ClaimA(env), RenewOf(env, "a", 0, 1, env.wireTtl)]
    ensures t.s.nodes["b"] == FetchedB(env) && t.s.nodes["c"] == SentC(env).(clock := env.wireTtl)
  {
    hide Possible, SentC, FetchedB, JoinedB, SentA, HolderA;
    t := TheThree(env);
    t := ThenSendsA(env, t);
    t := ThenRenewsLate(env, t);
  }

  // ----- d takes over when a's term ends -----

  function JoinedD(env: Env): Node { Joined(env, "d", 0, 3, 2 * env.wireTtl) }
  function PostedD(env: Env): Node { Posted(env, "d", 2 * env.wireTtl, JoinedD(env), 3) }
  function ClaimD(env: Env): Record { ClaimOf(env, "d", 3, 2 * env.wireTtl) }

  /** The log when d has claimed: the third record is a claim that comes within a's term. */
  function Contested(env: Env, third: Record): seq<Record> {
    [Margins.ClaimA(env), RenewOf(env, "a", 0, 1, env.wireTtl), third, ClaimD(env)]
  }

  predicate Premature(env: Env, third: Record) {
    third == ClaimOf(env, third.holder, 2, third.timestamp) && third.holder in {"b", "c"}
    && env.wireTtl <= third.timestamp < 2 * env.wireTtl
  }

  function Sees(env: Env, holder: string, epoch: int, expires: Time, clock: Time, last: int): Views.ViewState {
    Views.ViewState(env.ttl, true, State(holder, epoch, expires), clock, last, true, [])
  }

  lemma FromTheStart(env: Env, third: Record)
    requires Stale(env) && Premature(env, third)
    ensures var w := env.wireTtl;
            Views.Apply(Views.NewFromStart(env.ttl), Margins.ClaimA(env)).view == Sees(env, "a", 0, 1 + w, 1, 0)
            && Views.Apply(Sees(env, "a", 0, 1 + w, 1, 0), RenewOf(env, "a", 0, 1, w)).view == Sees(env, "a", 0, 2 * w, w, 1)
            && Views.Apply(Sees(env, "a", 0, 2 * w, w, 1), third).view == Sees(env, "a", 0, 2 * w, third.timestamp, 2)
            && Views.Apply(Sees(env, "a", 0, 2 * w, third.timestamp, 2), ClaimD(env)).view == Sees(env, "d", 3, 3 * w, 2 * w, 3)
  {
    StaleBounds(env);
  }

  lemma PostsD(env: Env)
    requires Stale(env)
    ensures var now, n := 2 * env.wireTtl, JoinedD(env);
            Posts(env, "d", now, n) && PostedRecord(env, "d", now, n, 3, now) == ClaimD(env)
            && PostedD(env).outbox.None? && Awaits(PostedD(env), now, 3, 0, Views.NewFromStart(env.ttl))
            && PostedD(env).clock == now && PostedD(env).agent.lastSend == now
  {
    StaleBounds(env);
  }

  function ReadD(env: Env, third: Record, k: int): Node
    requires 0 <= k <= 4
  {
    ReadOn(env, "d", PostedD(env), Contested(env, third), 0, k)
  }

  lemma KeepsD(env: Env, third: Record)
    requires Stale(env) && Premature(env, third)
    ensures Keeps(env, ReadD(env, third, 4), "d", 3, 2 * env.wireTtl, 3) && ReadD(env, third, 4).clock == 2 * env.wireTtl
  {
    StaleBounds(env);
    PostsD(env);
    FromTheStart(env, third);
    hide Views.Apply, PostedD, ReadBy, Stale;
    var w, sent, n0 := env.wireTtl, 2 * env.wireTtl, PostedD(env);
    AwaitsOn(env, "d", n0, sent, 3, Views.NewFromStart(env.ttl), Margins.ClaimA(env));
    assert ReadD(env, third, 1) == ReadBy(env, "d", n0, Margins.ClaimA(env));
    AwaitsOn(env, "d", ReadD(env, third, 1), sent, 3, Sees(env, "a", 0, 1 + w, 1, 0), RenewOf(env, "a", 0, 1, w));
    assert ReadD(env, third, 2) == ReadBy(env, "d", ReadD(env, third, 1), RenewOf(env, "a", 0, 1, w));
    AwaitsOn(env, "d", ReadD(env, third, 2), sent, 3, Sees(env, "a", 0, 2 * w, w, 1), third);
    assert ReadD(env, third, 3) == ReadBy(env, "d", ReadD(env, third, 2), third);
    AwaitsBelieves(env, "d", ReadD(env, third, 3), sent, 3, Sees(env, "a", 0, 2 * w, third.timestamp, 2), ClaimD(env));
    assert ReadD(env, third, 4) == ReadBy(env, "d", ReadD(env, third, 3), ClaimD(env));
  }

  lemma ThenPostsD(env: Env, t: Trace, third: Record) returns (v: Trace)
    requires Stale(env) && Premature(env, third) && Possible(env, t) && t.s.now == 2 * env.wireTtl && "d" !in t.s.nodes
    requires t.s.log == [Margins.ClaimA(env), RenewOf(env, "a", 0, 1, env.wireTtl), third]
    ensures Possible(env, v) && v.s.now == t.s.now && v.s.log == Contested(env, third) && v.s.nodes == t.s.nodes["d" := PostedD(env)]
  {
    StaleBounds(env);
    PostsD(env);
    hide Possible, Joined, Posted, PostedRecord, Posts, Stale, Sane, RenewOf, Margins.ClaimA, ClaimD;
    v := ThenJoins(env, t, "d", 0, 3);
    assert v.s.nodes["d"] == JoinedD(env);
    v := ThenPosts(env, v, "d", 2 * env.wireTtl);
    assert v.s.nodes["d"] == PostedD(env);
  }

  lemma ThenKeepsD(env: Env, t: Trace, third: Record) returns (v: Trace)
    requires Stale(env) && Premature(env, third) && Possible(env, t) && t.s.log == Contested(env, third)
    requires "d" in t.s.nodes && t.s.nodes["d"] == PostedD(env)
    ensures Possible(env, v) && v.s == t.s.(nodes := t.s.nodes["d" := ReadD(env, third, 4)])
  {
    PostsD(env);
    hide Possible, PostedD, Contested, Sane, Env.QuietCovers;
    v := ThenReadsOn(env, t, "d", 0, 4);
  }

  // ----- b claims within a's term -----

  function QuietB(env: Env): Node { FetchedB(env).(clock := QuietTime(env)) }

  /** What quiet makes of a view that never saw a record. */
  function FreeView(env: Env): Views.ViewState {
    Views.SetFree(Views.New(env.ttl))
  }

  lemma QuietFiresForB(env: Env)
    requires Stale(env)
    ensures var now, n := QuietTime(env), QuietB(env);
            n.outbox.None? && n.flight == NoFlight && n.clock == now && now - env.fetchAge <= n.fetchedAt
            && n.agent == New(env.Cfg("b"), 1, 1, 1).(fetchedOnce := true)
            && FetchedB(env).clock == env.wireTtl
  {
    StaleBounds(env);
  }

  lemma PostsB(env: Env)
    requires Stale(env)
    ensures var now, n := QuietTime(env), QuietB(env);
            Posts(env, "b", now, n) && PostedRecord(env, "b", now, n, 2, now) == ClaimOf(env, "b", 2, now)
            && Posted(env, "b", now, n, 2).outbox.None? && Posted(env, "b", now, n, 2).clock == now
            && Awaits(Posted(env, "b", now, n, 2), now, 2, 1, FreeView(env))
  {
    QuietFiresForB(env);
    StaleBounds(env);
    hide QuietB;
  }

  function HolderB(env: Env): Node {
    var n := Posted(env, "b", QuietTime(env), QuietB(env), 2);
    ReadBy(env, "b", ReadBy(env, "b", n, RenewOf(env, "a", 0, 1, env.wireTtl)), ClaimOf(env, "b", 2, QuietTime(env)))
  }

  /** b's view is blind to a's renew. */
  lemma RejectsRenew(env: Env)
    requires Stale(env)
    ensures Views.Apply(FreeView(env), RenewOf(env, "a", 0, 1, env.wireTtl)).view == Sees(env, "", -1, ZERO_TIME, env.wireTtl, 1)
  {
    StaleBounds(env);
  }

  lemma HoldsB(env: Env)
    requires Stale(env)
    ensures HolderB(env).agent.deadline == QuietTime(env) + (env.ttl - env.margin) && HolderB(env).clock == QuietTime(env)
  {
    var now, n := QuietTime(env), Posted(env, "b", QuietTime(env), QuietB(env), 2);
    StaleBounds(env);
    PostsB(env);
    RejectsRenew(env);
    hide Posted, QuietB, Views.Apply, ReadBy, Stale;
    var r := RenewOf(env, "a", 0, 1, env.wireTtl);
    AwaitsOn(env, "b", n, now, 2, FreeView(env), r);
    AwaitsBelieves(env, "b", ReadBy(env, "b", n, r), now, 2, Sees(env, "", -1, ZERO_TIME, env.wireTtl, 1), ClaimOf(env, "b", 2, now));
  }

  lemma ThenHoldsB(env: Env, t: Trace) returns (v: Trace)
    requires Stale(env) && Possible(env, t) && t.s.now == env.wireTtl && t.s.nodes.Keys == {"a", "b", "c"}
    requires t.s.log == [Margins.ClaimA(env), RenewOf(env, "a", 0, 1, env.wireTtl)] && t.s.nodes["b"] == FetchedB(env)
    ensures Possible(env, v) && v.s.now == QuietTime(env) && v.s.nodes.Keys == {"a", "b", "c"} && v.s.nodes["b"] == HolderB(env)
    ensures v.s.log == [Margins.ClaimA(env), RenewOf(env, "a", 0, 1, env.wireTtl), ClaimOf(env, "b", 2, QuietTime(env))]
  {
    var now := QuietTime(env);
    StaleBounds(env);
    QuietFiresForB(env);
    PostsB(env);
    assert Posted(env, "b", now, QuietB(env), 2).agent.nextOffset == 1;
    AwaitsOn(env, "b", Posted(env, "b", now, QuietB(env), 2), now, 2, FreeView(env), RenewOf(env, "a", 0, 1, env.wireTtl));
    hide Possible, Posted, PostedRecord, Posts, ReadBy, FetchedB, RenewOf, Margins.ClaimA, ClaimOf;
    v := ThenWaits(env, t, now - env.wireTtl);
    assert v.s.nodes["b"] == QuietB(env);
    v := ThenPosts(env, v, "b", now);
    assert v.s.log == t.s.log + [ClaimOf(env, "b", 2, now)];
    v := ThenReads(env, v, "b", 1);
    v := ThenReads(env, v, "b", 2);
  }

  lemma ThenTakesOverD(env: Env, t: Trace, third: Record) returns (v: Trace)
    requires Stale(env) && Premature(env, third) && Possible(env, t) && t.s.now == 2 * env.wireTtl && t.s.nodes.Keys == {"a", "b", "c"}
    requires t.s.log == [Margins.ClaimA(env), RenewOf(env, "a", 0, 1, env.wireTtl), third]
    ensures Possible(env, v) && v.s.now == t.s.now && v.s.log == Contested(env, third)
    ensures v.s.nodes.Keys == {"a", "b", "c", "d"} && v.s.nodes["b"] == t.s.nodes["b"] && v.s.nodes["d"] == ReadD(env, third, 4)
  {
    hide Possible, PostedD, ReadD, Stale, Premature, Contested;
    v := ThenPostsD(env, t, third);
    v := ThenKeepsD(env, v, third);
  }

  lemma BothWithinTheTerm(env: Env) returns (t: Trace)
    requires Stale(env) && QuietTime(env) < 2 * env.wireTtl
    ensures var third := ClaimOf(env, "b", 2, QuietTime(env));
            Possible(env, t) && "b" in t.s.nodes && "d" in t.s.nodes
            && t.s.nodes["b"] == HolderB(env).(clock := 2 * env.wireTtl) && t.s.nodes["d"] == ReadD(env, third, 4)
  {
    var third := ClaimOf(env, "b", 2, QuietTime(env));
    StaleBounds(env);
    HoldsB(env);
    t := CutOff(env);
    hide Possible, HolderB, FetchedB, SentC, ReadD;
    t := ThenHoldsB(env, t);
    t := ThenWaits(env, t, 2 * env.wireTtl - QuietTime(env));
    t := ThenTakesOverD(env, t, third);
  }

  /** The silence is over before a's term is. */
  lemma WithinTheTerm(env: Env) returns (run: seq<Sys>, steps: seq<Step>)
    requires Stale(env) && QuietTime(env) < 2 * env.wireTtl
    ensures IsRun(env, run, steps) && !Exclusive(run)
  {
    StaleBounds(env);
    HoldsB(env);
    KeepsD(env, ClaimOf(env, "b", 2, QuietTime(env)));
    hide Possible, HolderB, ReadD;
    var t := BothWithinTheTerm(env);
    run := BothBelieve(env, t, "b", "d");
    steps := t.steps;
  }

  // ----- b claims within d's term -----

  function SentB(env: Env): Node { TickedBy(env, "b", QuietTime(env), QuietB(env)) }

  function ClaimB(env: Env): Msg {
    Msg(0, Record(0, ZERO_TIME, Claim, "b", 0, env.ttl), Sent(QuietTime(env), QuietTime(env)))
  }

  function LateB(env: Env, k: int): Node {
    var n := LandedBy(SentB(env).(clock := QuietTime(env) + 1), ClaimB(env), k);
    if n.flight.Landed? then AckedBy(env, "b", n) else n
  }

  lemma SendsB(env: Env, k: int)
    requires Stale(env) && 4 <= k
    ensures var n := QuietB(env);
            n.outbox.None? && n.clock == QuietTime(env) && QuietTime(env) - env.fetchAge <= n.fetchedAt
    ensures SentB(env).clock == QuietTime(env)
    ensures var n := SentB(env).(clock := QuietTime(env) + 1);
            n.outbox.None? && ClaimB(env) in n.wire && LandedBy(n, ClaimB(env), k).flight.Landed? && LandedBy(n, ClaimB(env), k).outbox.None?
    ensures Awaits(LateB(env, k), QuietTime(env), k, 1, FreeView(env)) && LateB(env, k).clock == QuietTime(env) + 1
  {
    QuietFiresForB(env);
    StaleBounds(env);
    hide QuietB;
  }

  function Third(env: Env): Record { ClaimOf(env, "c", 2, env.wireTtl + 1) }

  /** b takes c's claim for good, and so neither d's claim nor its renewals. */
  lemma RejectsD(env: Env)
    requires Stale(env)
    ensures var w := env.wireTtl;
            Views.Apply(Sees(env, "", -1, ZERO_TIME, w, 1), Third(env)).view == Sees(env, "c", 2, 2 * w + 1, w + 1, 2)
            && Views.Apply(Sees(env, "c", 2, 2 * w + 1, w + 1, 2), ClaimD(env)).view == Sees(env, "c", 2, 2 * w + 1, 2 * w, 3)
  {
    StaleBounds(env);
  }

  ghost predicate Blind(env: Env, v: Views.ViewState, k: int) {
    v.ttl == env.ttl && v.certain && v.state == State("c", 2, 2 * env.wireTtl + 1) && v.lastOffset == k - 1
  }

  lemma StaysBlind(env: Env, v: Views.ViewState, k: int, stamp: Time)
    requires Stale(env) && Blind(env, v, k)
    ensures Blind(env, Views.Apply(v, RenewOf(env, "d", 3, k, stamp)).view, k + 1)
  {
  }

  /** The log when b's claim lands: d's renewals, and then it. */
  ghost predicate EndsInB(env: Env, log: seq<Record>, last: Time) {
    && 5 <= |log| && log[..4] == Contested(env, Third(env)) && OnlyRenews(env, log[..|log| - 1])
    && log[|log| - 1] == ClaimOf(env, "b", |log| - 1, last)
  }

  function ReadB(env: Env, log: seq<Record>, k: int): Node
    requires 1 <= k <= |log|
  {
    ReadOn(env, "b", LateB(env, |log| - 1), log, 1, k)
  }

  lemma ReadsFour(env: Env, log: seq<Record>, last: Time)
    requires Stale(env) && EndsInB(env, log, last)
    ensures Awaits(ReadB(env, log, 4), QuietTime(env), |log| - 1, 4, Sees(env, "c", 2, 2 * env.wireTtl + 1, 2 * env.wireTtl, 3))
    ensures Blind(env, Sees(env, "c", 2, 2 * env.wireTtl + 1, 2 * env.wireTtl, 3), 4) && ReadB(env, log, 4).clock == QuietTime(env) + 1
  {
    var w, sent, k := env.wireTtl, QuietTime(env), |log| - 1;
    SendsB(env, k);
    RejectsRenew(env);
    RejectsD(env);
    assert log[1] == log[..4][1] && log[2] == log[..4][2] && log[3] == log[..4][3];
    var n0 := LateB(env, k);
    hide Views.Apply, ReadBy, Stale, LateB, EndsInB, Awaits;
    AwaitsOn(env, "b", n0, sent, k, FreeView(env), RenewOf(env, "a", 0, 1, w));
    assert ReadB(env, log, 2) == ReadBy(env, "b", n0, log[1]);
    AwaitsOn(env, "b", ReadB(env, log, 2), sent, k, Sees(env, "", -1, ZERO_TIME, w, 1), Third(env));
    assert ReadB(env, log, 3) == ReadBy(env, "b", ReadB(env, log, 2), log[2]);
    AwaitsOn(env, "b", ReadB(env, log, 3), sent, k, Sees(env, "c", 2, 2 * w + 1, w + 1, 2), ClaimD(env));
    assert ReadB(env, log, 4) == ReadBy(env, "b", ReadB(env, log, 3), log[3]);
  }

  lemma ReadsRenewal(env: Env, log: seq<Record>, last: Time, k: int, u: Views.ViewState) returns (v: Views.ViewState)
    requires Stale(env) && EndsInB(env, log, last) && 4 <= k < |log| - 1
    requires Awaits(ReadB(env, log, k), QuietTime(env), |log| - 1, k, u) && Blind(env, u, k)
    ensures Awaits(ReadB(env, log, k + 1), QuietTime(env), |log| - 1, k + 1, v) && Blind(env, v, k + 1)
    ensures ReadB(env, log, k + 1).clock == ReadB(env, log, k).clock
  {
    var r := log[k];
    assert r == log[..|log| - 1][k] && r == RenewOf(env, "d", 3, k, r.timestamp);
    AwaitsOn(env, "b", ReadB(env, log, k), QuietTime(env), |log| - 1, u, r);
    StaysBlind(env, u, k, r.timestamp);
    assert ReadB(env, log, k + 1) == ReadBy(env, "b", ReadB(env, log, k), r);
    hide *;
    v := Views.Apply(u, r).view;
  }

  lemma {:induction false} ReadsRenewals(env: Env, log: seq<Record>, last: Time, k: int) returns (v: Views.ViewState)
    requires Stale(env) && EndsInB(env, log, last) && 4 <= k < |log|
    ensures Awaits(ReadB(env, log, k), QuietTime(env), |log| - 1, k, v) && Blind(env, v, k)
    ensures ReadB(env, log, k).clock == QuietTime(env) + 1
    decreases k
  {
    hide *;
    if k == 4 {
      ReadsFour(env, log, last);
      v := Sees(env, "c", 2, 2 * env.wireTtl + 1, 2 * env.wireTtl, 3);
    } else {
      v := ReadsRenewals(env, log, last, k - 1);
      v := ReadsRenewal(env, log, last, k - 1, v);
    }
  }

  lemma LateBelieves(env: Env, log: seq<Record>)
    requires Stale(env) && EndsInB(env, log, QuietTime(env) + 1) && 2 * env.wireTtl <= QuietTime(env)
    ensures var n := ReadB(env, log, |log|); Believing(n.agent, n.clock)
  {
    var k := |log| - 1;
    StaleBounds(env);
    var v := ReadsRenewals(env, log, QuietTime(env) + 1, k);
    hide ReadBy, LateB;
    AwaitsBelieves(env, "b", ReadB(env, log, k), QuietTime(env), k, v, log[k]);
    assert ReadB(env, log, k + 1) == ReadBy(env, "b", ReadB(env, log, k), log[k]);
  }

  lemma ThenLandsC(env: Env, t: Trace) returns (v: Trace)
    requires Stale(env) && Possible(env, t) && t.s.now == env.wireTtl + 1 && |t.s.log| == 2 && "c" in t.s.nodes
    requires t.s.nodes["c"] == SentC(env).(clock := env.wireTtl + 1)
    ensures Possible(env, v) && v.s.now == t.s.now && v.s.log == t.s.log + [Third(env)] && v.s.nodes.Keys == t.s.nodes.Keys
    ensures forall h :: h in t.s.nodes && h != "c" ==> v.s.nodes[h] == t.s.nodes[h]
  {
    StaleBounds(env);
    SendsC(env);
    hide Possible, SentC, LandedBy;
    v := ThenLands(env, t, "c", ClaimC(env), env.wireTtl + 1);
  }

  lemma ThenClaimsC(env: Env, t: Trace) returns (v: Trace)
    requires Stale(env) && Possible(env, t) && t.s.now == env.wireTtl && t.s.nodes.Keys == {"a", "b", "c"}
    requires t.s.log == [Margins.ClaimA(env), RenewOf(env, "a", 0, 1, env.wireTtl)]
    requires t.s.nodes["b"] == FetchedB(env) && t.s.nodes["c"] == SentC(env).(clock := env.wireTtl)
    ensures Possible(env, v) && v.s.now == 2 * env.wireTtl && v.s.nodes.Keys == {"a", "b", "c"}
    ensures v.s.log == [Margins.ClaimA(env), RenewOf(env, "a", 0, 1, env.wireTtl), Third(env)]
    ensures v.s.nodes["b"] == FetchedB(env).(clock := 2 * env.wireTtl)
  {
    assert env.Valid() && 1 <= env.wireTtl by { StaleBounds(env); }
    assert FetchedB(env).clock == env.wireTtl by { QuietFiresForB(env); }
    hide Possible, Stale, SentC, FetchedB, RenewOf, Margins.ClaimA, Third;
    v := ThenWaits(env, t, 1);
    v := ThenLandsC(env, v);
    v := ThenWaits(env, v, env.wireTtl - 1);
  }

  lemma TakenOver(env: Env) returns (t: Trace)
    requires Stale(env)
    ensures Meanwhile(env, t, 2 * env.wireTtl, FetchedB(env), Contested(env, Third(env))) && t.s.now == 2 * env.wireTtl
  {
    StaleBounds(env);
    KeepsD(env, Third(env));
    t := CutOff(env);
    hide Possible, ReadD, Stale, FetchedB, SentC, Keeps;
    t := ThenClaimsC(env, t);
    t := ThenTakesOverD(env, t, Third(env));
    assert t.s.log[..4] == t.s.log;
  }

  lemma ThenSendsB(env: Env, t: Trace, sent: Time) returns (v: Trace)
    requires Stale(env) && Meanwhile(env, t, sent, FetchedB(env), Contested(env, Third(env))) && t.s.now == QuietTime(env)
    ensures Meanwhile(env, v, sent, SentB(env), Contested(env, Third(env))) && v.s.now == t.s.now
  {
    StaleBounds(env);
    SendsB(env, 4);
    assert SentB(env).(clock := QuietTime(env)) == SentB(env);
    assert t.s.nodes["b"] == QuietB(env);
    hide Possible, Stale, FetchedB, Keeps, QuietB, TickedBy;
    v := ThenTicks(env, t, "b");
  }

  /** b's claim lands late. */
  lemma ThenLandsB(env: Env, t: Trace, sent: Time) returns (v: Trace)
    requires Stale(env) && Meanwhile(env, t, sent, SentB(env), Contested(env, Third(env))) && t.s.now == QuietTime(env) + 1
    ensures Possible(env, v) && v.s.now == t.s.now && "b" in v.s.nodes && "d" in v.s.nodes && v.s.nodes["d"] == t.s.nodes["d"]
    ensures EndsInB(env, v.s.log, v.s.now) && v.s.nodes["b"] == LateB(env, |v.s.log| - 1)
  {
    var k := |t.s.log|;
    StaleBounds(env);
    SendsB(env, k);
    assert Stamped(env, ClaimB(env).rec, k, t.s.now) == ClaimOf(env, "b", k, t.s.now);
    hide Possible, Stale, Keeps, SentB, LandedBy, ClaimB, ClaimOf, Contested;
    v := ThenLands(env, t, "b", ClaimB(env), t.s.now);
    v := ThenAcked(env, v, "b");
    assert v.s.log[..4] == t.s.log[..4] && v.s.log[..k] == t.s.log;
  }

  lemma LateOutbox(env: Env, k: int)
    requires Stale(env) && 4 <= k
    ensures LateB(env, k).outbox.None?
  {
    SendsB(env, k);
  }

  /** The silence is over after it. */
  lemma AfterTheTerm(env: Env) returns (run: seq<Sys>, steps: seq<Step>)
    requires Stale(env) && 2 * env.wireTtl <= QuietTime(env)
    ensures IsRun(env, run, steps) && !Exclusive(run)
  {
    var tail, last := Contested(env, Third(env)), 2 * env.wireTtl;
    var t := TakenOver(env);
    t, last := MeanwhileGoesOn(env, t, last, FetchedB(env), tail, QuietTime(env));
    t := ThenSendsB(env, t, last);
    t, last := MeanwhileGoesOn(env, t, last, SentB(env), tail, QuietTime(env) + 1);
    run, steps := EndsInTwo(env, t, last);
  }

  lemma ThenReadsB(env: Env, t: Trace) returns (v: Trace)
    requires Stale(env) && Possible(env, t) && "b" in t.s.nodes && 5 <= |t.s.log|
    requires t.s.nodes["b"] == LateB(env, |t.s.log| - 1)
    ensures Possible(env, v) && v.s == t.s.(nodes := t.s.nodes["b" := ReadB(env, t.s.log, |t.s.log|)])
  {
    LateOutbox(env, |t.s.log| - 1);
    hide Possible, LateB;
    v := ThenReadsOn(env, t, "b", 1, |t.s.log|);
  }

  lemma EndsInTwo(env: Env, t: Trace, sent: Time) returns (run: seq<Sys>, steps: seq<Step>)
    requires Stale(env) && Meanwhile(env, t, sent, SentB(env), Contested(env, Third(env))) && t.s.now == QuietTime(env) + 1
    requires 2 * env.wireTtl <= QuietTime(env)
    ensures IsRun(env, run, steps) && !Exclusive(run)
  {
    assert Believing(t.s.nodes["d"].agent, t.s.nodes["d"].clock);
    hide Possible, Stale, Meanwhile, SentB, LateB, ReadB, Believing, Contested;
    var v := ThenLandsB(env, t, sent);
    LateBelieves(env, v.s.log);
    v := ThenReadsB(env, v);
    run := BothBelieve(env, v, "b", "d");
    steps := v.steps;
  }

  /** Quiet needs a fetch that is fresh enough: otherwise two participants can believe at once, on perfect
      clocks and whatever the TTL and the margin. */
  lemma StaleQuietOverlaps(env: Env) returns (run: seq<Sys>, steps: seq<Step>)
    requires Sane(env) && env.margin + 1 < env.ttl && !env.wholeLog && !env.QuietCovers()
    ensures IsRun(env, run, steps) && !Exclusive(run)
  {
    if QuietTime(env) < 2 * env.wireTtl {
      run, steps := WithinTheTerm(env);
    } else {
      run, steps := AfterTheTerm(env);
    }
  }
}
