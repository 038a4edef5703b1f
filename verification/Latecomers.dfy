/**
 Late joiners on brokers that disagree about the time. Two readers of different tails clamp the same
 timestamps differently (lease/view.go), and no margin makes up for it: with any skew at all there is a
 run in which a reader that joined late believes beside the true holder.

 z takes the lease and gives it up at once, through a leader whose clock is ahead. a takes it next and
 renews it, through a leader whose clock is behind, and stops. Whoever read z's records has a's term start
 and end later than b, who joined after them. b claims when the term is over for it; the whole log
 rejects that claim, and accepts the one that c, who read everything, writes at the same moment.
 */
module Latecomers {
  import opened Records
  import opened LeaseFold
  import opened Agents
  import opened Systems
  import opened Traces
  import opened Margins
  import Views

  /** When a sends its claim; when everything lands; and when b and c claim. */
  function SendTime(env: Env): Time { env.skew + 1 }
  function LandTime(env: Env): Time { SendTime(env) + env.renewEvery }
  function ClaimTime(env: Env): Time { LandTime(env) + env.wireTtl }

  function High(env: Env): Time { LandTime(env) + env.skew }
  function Low(env: Env): Time { LandTime(env) - env.skew }

  predicate Disputed(env: Env) {
    env.Valid() && 0 < env.skew && 0 < env.wireTtl && !env.wholeLog
  }

  function ClaimZ(env: Env): Record { Record(0, High(env), Claim, "z", 0, env.wireTtl) }
  function ReleaseZ(env: Env): Record { Record(1, High(env), Release, "z", 0, env.wireTtl) }
  function ClaimA(env: Env): Record { Record(2, Low(env), Claim, "a", 0, env.wireTtl) }
  function RenewA(env: Env): Record { Record(3, Low(env), Renew, "a", 2, env.wireTtl) }
  function ClaimB(env: Env): Record { Record(4, Low(env) + env.wireTtl, Claim, "b", 0, env.wireTtl) }
  function ClaimC(env: Env): Record { Record(5, ClaimTime(env) + env.skew, Claim, "c", 0, env.wireTtl) }

  function WholeLog(env: Env): seq<Record> {
    [ClaimZ(env), ReleaseZ(env), ClaimA(env), RenewA(env), ClaimB(env), ClaimC(env)]
  }

  // ----- what each reader makes of it -----

  function Sees(env: Env, holder: string, epoch: int, expires: Time, clock: Time, last: int): Views.ViewState {
    Views.ViewState(env.ttl, true, State(holder, epoch, expires), clock, last, true, [])
  }

  /** From the start: a's term ends at High + ttl, and b's claim comes too early. */
  lemma FromTheStart(env: Env)
    requires Disputed(env)
    ensures Views.Apply(Views.NewFromStart(env.ttl), ClaimZ(env)).view == Sees(env, "z", 0, High(env) + env.wireTtl, High(env), 0)
    ensures Views.Apply(Sees(env, "z", 0, High(env) + env.wireTtl, High(env), 0), ReleaseZ(env)).view == Sees(env, "", 0, High(env), High(env), 1)
    ensures Views.Apply(Sees(env, "", 0, High(env), High(env), 1), ClaimA(env)).view
         == Sees(env, "a", 2, High(env) + env.wireTtl, High(env), 2)
    ensures Views.Apply(Sees(env, "a", 2, High(env) + env.wireTtl, High(env), 2), RenewA(env)).view
         == Sees(env, "a", 2, High(env) + env.wireTtl, High(env), 3)
    ensures var v := Views.Apply(Sees(env, "a", 2, High(env) + env.wireTtl, High(env), 3), ClaimB(env)).view;
            v == Sees(env, "a", 2, High(env) + env.wireTtl, v.clock, 4) && v.clock <= ClaimTime(env) + env.skew
  {
  }

  /** From offset 2 on: it ends at Low + ttl. */
  lemma FromTheTail(env: Env)
    requires Disputed(env)
    ensures var v := Views.Apply(Views.New(env.ttl), ClaimA(env)).view;
            v == Views.ViewState(env.ttl, false, Views.EMPTY_STATE, Low(env), 2, true, [ClaimA(env)])
            && Views.Apply(v, RenewA(env)).view == Sees(env, "a", 2, Low(env) + env.wireTtl, Low(env), 3)
  {
    assert [ClaimA(env)][1..] == [];
    assert ValidTtl(env.ttl, ClaimA(env));
    assert Views.DropOld([ClaimA(env)], Low(env) - 2 * env.ttl) == [ClaimA(env)];
    assert [] + [ClaimA(env)] == [ClaimA(env)];
    assert Views.FindAnchor([ClaimA(env)], "a", 2) == 0;
  }

  // ----- z -----

  function JoinedZ(env: Env): Node { Joined(env, "z", 0, 0, LandTime(env)) }
  function HolderZ(env: Env): Node { ReadBy(env, "z", Posted(env, "z", LandTime(env), JoinedZ(env), 0), ClaimZ(env)) }
  function FarewellZ(env: Env): Msg {
    Msg(1, Record(0, ZERO_TIME, Release, "z", 0, env.ttl), Sent(LandTime(env), LandTime(env)))
  }

  lemma PassesZ(env: Env)
    requires Disputed(env)
    ensures var now := LandTime(env);
            Posts(env, "z", now, JoinedZ(env)) && PostedRecord(env, "z", now, JoinedZ(env), 0, High(env)) == ClaimZ(env)
            && Posted(env, "z", now, JoinedZ(env), 0).outbox.None?
    ensures var n := HolderZ(env);
            n.outbox.None? && n.agent.inflight.None? && ReleasedBy(env, "z", LandTime(env), n).outbox.Some?
            && Resigned(env, "z", LandTime(env), n).outbox.None? && FarewellZ(env) in Resigned(env, "z", LandTime(env), n).wire
  {
  }

  lemma ThenPassesZ(env: Env, t: Trace) returns (v: Trace)
    requires Disputed(env) && Possible(env, t) && t.s.now == LandTime(env) && t.s.log == [] && "z" !in t.s.nodes
    ensures Possible(env, v) && v.s.now == t.s.now && v.s.log == [ClaimZ(env), ReleaseZ(env)]
    ensures v.s.nodes.Keys == t.s.nodes.Keys + {"z"} && forall h :: h in t.s.nodes ==> v.s.nodes[h] == t.s.nodes[h]
  {
    PassesZ(env);
    hide Possible, Joined, Posted, PostedRecord, ReadBy, Posts, JoinedZ, ReleasedBy, Resigned;
    v := ThenJoins(env, t, "z", 0, 0);
    assert v.s.nodes["z"] == JoinedZ(env);
    v := ThenPosts(env, v, "z", High(env));
    assert v.s.log == [ClaimZ(env)];
    v := ThenReads(env, v, "z", 0);
    v := ThenResigns(env, v, "z");
    v := ThenLands(env, v, "z", FarewellZ(env), High(env));
  }

  // ----- a -----

  function JoinedA(env: Env): Node { Joined(env, "a", 0, 0, SendTime(env)) }
  function SentA(env: Env): Node { TickedBy(env, "a", SendTime(env), JoinedA(env)) }
  function FirstA(env: Env): Msg {
    Msg(0, Record(0, ZERO_TIME, Claim, "a", 0, env.ttl), Sent(SendTime(env), SendTime(env)))
  }
  function AckedA(env: Env): Node {
    var n := LandedBy(SentA(env).(clock := LandTime(env)), FirstA(env), 2);
    if n.flight.Landed? then AckedBy(env, "a", n) else n
  }

  lemma SendsA(env: Env)
    requires Disputed(env)
    ensures var n := JoinedA(env);
            n.outbox.None? && n.clock == SendTime(env) && n.agent.view.certain && SentA(env).clock == SendTime(env)
    ensures var n := SentA(env).(clock := LandTime(env));
            n.outbox.None? && FirstA(env) in n.wire && LandedBy(n, FirstA(env), 2).flight.Landed? && LandedBy(n, FirstA(env), 2).outbox.None?
    ensures Awaits(AckedA(env), SendTime(env), 2, 0, Views.NewFromStart(env.ttl)) && AckedA(env).clock == LandTime(env)
    ensures AckedA(env).agent.lastSend == SendTime(env)
  {
  }

  /** a reads z's two records and its own claim. */
  function ReadA(env: Env, k: int): Node
    requires 0 <= k <= 3
  {
    ReadOn(env, "a", AckedA(env), WholeLog(env), 0, k)
  }

  lemma HoldsA(env: Env)
    requires Disputed(env)
    ensures var n := ReadA(env, 3);
            n.outbox.None? && n.clock == LandTime(env) && n.flight == NoFlight && n.agent.inflight.None? && n.agent.epoch == 2
            && n.agent.deadline == SendTime(env) + (env.ttl - env.margin) && n.agent.lastSend == SendTime(env)
            && n.agent.view == Sees(env, "a", 2, High(env) + env.wireTtl, High(env), 2)
  {
    SendsA(env);
    FromTheStart(env);
    hide Views.Apply, AckedA, ReadBy;
    var n0, sent := AckedA(env), SendTime(env);
    ReadOnFrame(env, "a", n0, WholeLog(env), 0, 1);
    ReadOnFrame(env, "a", n0, WholeLog(env), 0, 2);
    AwaitsOn(env, "a", n0, sent, 2, Views.NewFromStart(env.ttl), ClaimZ(env));
    assert ReadA(env, 1) == ReadBy(env, "a", n0, ClaimZ(env));
    AwaitsOn(env, "a", ReadA(env, 1), sent, 2, Sees(env, "z", 0, High(env) + env.wireTtl, High(env), 0), ReleaseZ(env));
    assert ReadA(env, 2) == ReadBy(env, "a", ReadA(env, 1), ReleaseZ(env));
    AwaitsBelieves(env, "a", ReadA(env, 2), sent, 2, Sees(env, "", 0, High(env), High(env), 1), ClaimA(env));
    assert ReadA(env, 3) == ReadBy(env, "a", ReadA(env, 2), ClaimA(env));
  }

  lemma RenewsA(env: Env)
    requires Disputed(env)
    ensures var now, n := LandTime(env), ReadA(env, 3);
            Posts(env, "a", now, n) && PostedRecord(env, "a", now, n, 3, Low(env)) == RenewA(env)
  {
    HoldsA(env);
    hide ReadA;
  }

  lemma AThenZ(env: Env) returns (t: Trace)
    requires Disputed(env)
    ensures Possible(env, t) && t.s.now == LandTime(env) && t.s.log == [ClaimZ(env), ReleaseZ(env)] && t.s.nodes.Keys == {"a", "z"}
    ensures t.s.nodes["a"] == SentA(env).(clock := LandTime(env))
  {
    SendsA(env);
    t := Trace([], EMPTY);
    assert Possible(env, t);
    hide Possible, Joined, TickedBy, SentA, JoinedA, AckedA, LandedBy;
    t := ThenWaits(env, t, env.skew);
    assert t.s.nodes == map[];
    t := ThenJoins(env, t, "a", 0, 0);
    assert t.s.nodes["a"] == JoinedA(env);
    t := ThenTicks(env, t, "a");
    assert t.s.nodes["a"] == SentA(env);
    t := ThenWaits(env, t, env.renewEvery);
    t := ThenPassesZ(env, t);
  }

  /** a's claim lands, is acknowledged and read back, and its renew follows at once. */
  lemma ThenHoldsA(env: Env, t: Trace) returns (v: Trace)
    requires Disputed(env) && Possible(env, t) && t.s.now == LandTime(env) && t.s.log == [ClaimZ(env), ReleaseZ(env)]
    requires t.s.nodes.Keys == {"a", "z"} && t.s.nodes["a"] == SentA(env).(clock := LandTime(env))
    ensures Possible(env, v) && v.s.now == t.s.now && v.s.nodes.Keys == {"a", "z"}
    ensures v.s.log == [ClaimZ(env), ReleaseZ(env), ClaimA(env), RenewA(env)]
  {
    SendsA(env);
    HoldsA(env);
    RenewsA(env);
    hide Possible, SentA, LandedBy, Posted, PostedRecord, Posts;
    v := ThenLands(env, t, "a", FirstA(env), Low(env));
    assert v.s.log == [ClaimZ(env), ReleaseZ(env), ClaimA(env)];
    v := ThenAcked(env, v, "a");
    assert v.s.nodes["a"] == AckedA(env);
    assert v.s.log == v.s.log[..3] == WholeLog(env)[..3];
    ReadOnSame(env, "a", AckedA(env), v.s.log, WholeLog(env), 0, 3);
    v := ThenReadsOn(env, v, "a", 0, 3);
    assert v.s.nodes["a"] == ReadA(env, 3);
    v := ThenPosts(env, v, "a", Low(env));
  }

  // ----- b -----

  function JoinedB(env: Env): Node { Joined(env, "b", 2, 4, LandTime(env)) }
  function TailB(env: Env): Node { ReadOn(env, "b", JoinedB(env), WholeLog(env), 2, 4).(clock := ClaimTime(env)) }
  function PostedB(env: Env): Node { Posted(env, "b", ClaimTime(env), TailB(env), 4) }
  function HolderB(env: Env): Node { ReadBy(env, "b", PostedB(env), ClaimB(env)) }

  lemma TailOfB(env: Env)
    requires Disputed(env)
    ensures var n := TailB(env);
            n.outbox.None? && n.flight == NoFlight && n.clock == ClaimTime(env)
            && n.agent == New(env.Cfg("b"), 2, 4, LandTime(env)).(
                            view := Sees(env, "a", 2, Low(env) + env.wireTtl, Low(env), 3), nextOffset := 4,
                            lastRecordAt := LandTime(env), lastRecordBroker := Low(env))
  {
    FromTheTail(env);
    var n := JoinedB(env);
    var m := ReadBy(env, "b", n, ClaimA(env));
    assert ReadOn(env, "b", n, WholeLog(env), 2, 3) == m;
    assert n.agent.view == Views.New(env.ttl);
    hide Views.Apply;
    assert ReadOn(env, "b", n, WholeLog(env), 2, 4) == ReadBy(env, "b", m, RenewA(env));
  }

  /** The term is over for b, by a hair. */
  lemma ClaimsB(env: Env)
    requires Disputed(env)
    ensures var now, n := ClaimTime(env), TailB(env);
            Posts(env, "b", now, n) && PostedRecord(env, "b", now, n, 4, Low(env) + env.wireTtl) == ClaimB(env)
            && PostedB(env).outbox.None? && Awaits(PostedB(env), now, 4, 4, n.agent.view)
  {
    TailOfB(env);
    hide TailB;
    PostedAwaits(env, "b", ClaimTime(env), TailB(env), 4);
  }

  lemma HoldsB(env: Env)
    requires Disputed(env)
    ensures Believing(HolderB(env).agent, HolderB(env).clock)
  {
    TailOfB(env);
    ClaimsB(env);
    PostedAwaits(env, "b", ClaimTime(env), TailB(env), 4);
    hide TailB, PostedB;
    AwaitsBelieves(env, "b", PostedB(env), ClaimTime(env), 4, TailB(env).agent.view, ClaimB(env));
  }

  // ----- c -----

  function JoinedC(env: Env): Node { Joined(env, "c", 0, 5, ClaimTime(env)) }
  function PostedC(env: Env): Node { Posted(env, "c", ClaimTime(env), JoinedC(env), 5) }
  function ReadC(env: Env, k: int): Node
    requires 0 <= k <= 6
  {
    ReadOn(env, "c", PostedC(env), WholeLog(env), 0, k)
  }

  lemma ClaimsC(env: Env)
    requires Disputed(env)
    ensures var now, n := ClaimTime(env), JoinedC(env);
            Posts(env, "c", now, n) && PostedRecord(env, "c", now, n, 5, now + env.skew) == ClaimC(env)
            && PostedC(env).outbox.None? && Awaits(PostedC(env), now, 5, 0, Views.NewFromStart(env.ttl)) && PostedC(env).clock == now
  {
  }

  lemma HoldsC(env: Env)
    requires Disputed(env)
    ensures Believing(ReadC(env, 6).agent, ReadC(env, 6).clock)
  {
    ClaimsC(env);
    FromTheStart(env);
    hide Views.Apply, PostedC, ReadBy;
    var sent := ClaimTime(env);
    var n0 := PostedC(env);
    AwaitsOn(env, "c", n0, sent, 5, Views.NewFromStart(env.ttl), ClaimZ(env));
    assert ReadC(env, 1) == ReadBy(env, "c", n0, ClaimZ(env));
    AwaitsOn(env, "c", ReadC(env, 1), sent, 5, Sees(env, "z", 0, High(env) + env.wireTtl, High(env), 0), ReleaseZ(env));
    assert ReadC(env, 2) == ReadBy(env, "c", ReadC(env, 1), ReleaseZ(env));
    AwaitsOn(env, "c", ReadC(env, 2), sent, 5, Sees(env, "", 0, High(env), High(env), 1), ClaimA(env));
    assert ReadC(env, 3) == ReadBy(env, "c", ReadC(env, 2), ClaimA(env));
    var held := Sees(env, "a", 2, High(env) + env.wireTtl, High(env), 2);
    AwaitsOn(env, "c", ReadC(env, 3), sent, 5, held, RenewA(env));
    assert ReadC(env, 4) == ReadBy(env, "c", ReadC(env, 3), RenewA(env));
    AwaitsOn(env, "c", ReadC(env, 4), sent, 5, held.(lastOffset := 3), ClaimB(env));
    assert ReadC(env, 5) == ReadBy(env, "c", ReadC(env, 4), ClaimB(env));
    AwaitsBelieves(env, "c", ReadC(env, 5), sent, 5, Views.Apply(held.(lastOffset := 3), ClaimB(env)).view, ClaimC(env));
    assert ReadC(env, 6) == ReadBy(env, "c", ReadC(env, 5), ClaimC(env));
  }

  // ----- the run -----

  lemma ThenTailB(env: Env, t: Trace) returns (v: Trace)
    requires Disputed(env) && Possible(env, t) && t.s.now == LandTime(env) && t.s.nodes.Keys == {"a", "z"}
    requires t.s.log == [ClaimZ(env), ReleaseZ(env), ClaimA(env), RenewA(env)]
    ensures Possible(env, v) && v.s.now == ClaimTime(env) && v.s.nodes.Keys == {"a", "b", "z"} && v.s.log == t.s.log
    ensures v.s.nodes["b"] == TailB(env)
  {
    assert JoinedB(env).outbox.None? && JoinedB(env).clock == LandTime(env);
    ReadOnFrame(env, "b", JoinedB(env), WholeLog(env), 2, 4);
    hide Possible, Joined, ReadBy;
    v := ThenJoins(env, t, "b", 2, 4);
    assert v.s.log[..4] == WholeLog(env)[..4];
    ReadOnSame(env, "b", JoinedB(env), v.s.log, WholeLog(env), 2, 4);
    v := ThenReadsOn(env, v, "b", 2, 4);
    v := ThenWaits(env, v, env.wireTtl);
  }

  lemma ThenPostsB(env: Env, t: Trace) returns (v: Trace)
    requires Disputed(env) && Possible(env, t) && t.s.now == ClaimTime(env) && "b" in t.s.nodes
    requires |t.s.log| == 4 && t.s.nodes["b"] == TailB(env)
    ensures Possible(env, v) && v.s.now == t.s.now && v.s.log == t.s.log + [ClaimB(env)] && v.s.nodes == t.s.nodes["b" := PostedB(env)]
  {
    ClaimsB(env);
    hide Possible, Posted, PostedRecord, Posts, TailB;
    v := ThenPosts(env, t, "b", Low(env) + env.wireTtl);
  }

  lemma ThenHoldsB(env: Env, t: Trace) returns (v: Trace)
    requires Disputed(env) && Possible(env, t) && t.s.now == ClaimTime(env) && "b" in t.s.nodes
    requires |t.s.log| == 4 && t.s.nodes["b"] == TailB(env)
    ensures Possible(env, v) && v.s.now == t.s.now && v.s.log == t.s.log + [ClaimB(env)]
    ensures v.s.nodes.Keys == t.s.nodes.Keys && v.s.nodes["b"] == HolderB(env)
  {
    ClaimsB(env);
    hide Possible, ReadBy, TailB, PostedB;
    v := ThenPostsB(env, t);
    v := ThenReads(env, v, "b", 4);
  }

  lemma ThenPostsC(env: Env, t: Trace) returns (v: Trace)
    requires Disputed(env) && Possible(env, t) && t.s.now == ClaimTime(env) && t.s.nodes.Keys == {"a", "b", "z"}
    requires t.s.log == [ClaimZ(env), ReleaseZ(env), ClaimA(env), RenewA(env), ClaimB(env)]
    ensures Possible(env, v) && v.s.log == WholeLog(env) && v.s.nodes == t.s.nodes["c" := PostedC(env)]
  {
    ClaimsC(env);
    hide Possible, Joined, Posted, PostedRecord, Posts;
    v := ThenJoins(env, t, "c", 0, 5);
    assert v.s.nodes["c"] == JoinedC(env);
    v := ThenPosts(env, v, "c", ClaimTime(env) + env.skew);
    assert v.s.nodes["c"] == PostedC(env);
  }

  lemma ThenHoldsC(env: Env, t: Trace) returns (v: Trace)
    requires Disputed(env) && Possible(env, t) && "c" in t.s.nodes && t.s.nodes["c"] == PostedC(env) && t.s.log == WholeLog(env)
    ensures Possible(env, v) && v.s.nodes == t.s.nodes["c" := ReadC(env, 6)]
  {
    ClaimsC(env);
    hide Possible, PostedC;
    v := ThenReadsOn(env, t, "c", 0, 6);
  }

  /** With brokers that disagree at all about the time, late joiners break the exclusion, whatever the
      margin, and however careful everybody else is. */
  lemma LateJoinerOverlaps(env: Env) returns (run: seq<Sys>, steps: seq<Step>)
    requires env.Valid() && 0 < env.wireTtl && 0 < env.skew && !env.wholeLog
    ensures IsRun(env, run, steps) && !Exclusive(run)
  {
    HoldsB(env);
    HoldsC(env);
    hide Possible, HolderB, ReadC, PostedC, TailB;
    var t := AThenZ(env);
    t := ThenHoldsA(env, t);
    t := ThenTailB(env, t);
    t := ThenHoldsB(env, t);
    t := ThenPostsC(env, t);
    t := ThenHoldsC(env, t);
    run := BothBelieve(env, t, "b", "c");
    steps := t.steps;
  }
}
