/**
 How to build a run of the system step by step. Modules `Counterexamples` and `Margins` use it to
 show runs that exist.
 */
module Traces {
  import opened Records
  import opened LeaseFold
  import opened Agents
  import opened Systems
  import Views

  /** steps lead from s to t. */
  ghost predicate Leads(env: Env, s: Sys, steps: seq<Step>, t: Sys)
    decreases |steps|
  {
    if steps == [] then s == t
    else Enabled(env, s, steps[0]) && Leads(env, After(env, s, steps[0]), steps[1..], t)
  }

  lemma {:induction false} LeadsTo(env: Env, s: Sys, a: seq<Step>, t: Sys, b: seq<Step>, u: Sys)
    requires Leads(env, s, a, t) && Leads(env, t, b, u)
    ensures Leads(env, s, a + b, u)
    decreases |a|
  {
    if a == [] {
      assert a + b == b;
    } else {
      LeadsTo(env, After(env, s, a[0]), a[1..], t, b, u);
      assert (a + b)[0] == a[0] && (a + b)[1..] == a[1..] + b;
    }
  }

  lemma LeadsOne(env: Env, s: Sys, step: Step, t: Sys)
    requires Enabled(env, s, step) && t == After(env, s, step)
    ensures Leads(env, s, [step], t)
  {
    assert [step][1..] == [];
  }

  /** What leads from an initial state is a run. */
  lemma {:induction false} RunOf(env: Env, s: Sys, steps: seq<Step>, t: Sys) returns (run: seq<Sys>)
    requires Leads(env, s, steps, t)
    ensures |run| == |steps| + 1 && run[0] == s && run[|steps|] == t
    ensures forall i :: 0 <= i < |steps| ==> Enabled(env, run[i], steps[i]) && run[i + 1] == After(env, run[i], steps[i])
    decreases |steps|
  {
    hide Enabled, After;
    if steps == [] {
      run := [s];
    } else {
      var rest := RunOf(env, After(env, s, steps[0]), steps[1..], t);
      run := [s] + rest;
      assert forall i :: 0 <= i < |rest| ==> run[i + 1] == rest[i];
      forall i | 0 <= i < |steps| ensures Enabled(env, run[i], steps[i]) && run[i + 1] == After(env, run[i], steps[i]) {
        if i > 0 {
          assert steps[1..][i - 1] == steps[i];
        }
      }
    }
  }

  /** A run in the making: steps from the empty system, and the state they lead to. */
  datatype Trace = Trace(steps: seq<Step>, s: Sys)

  const EMPTY := Sys(1, [], [], map[])

  ghost predicate Possible(env: Env, t: Trace) {
    Leads(env, EMPTY, t.steps, t.s)
  }

  lemma Then(env: Env, t: Trace, step: Step, u: Sys) returns (v: Trace)
    requires Possible(env, t) && Enabled(env, t.s, step) && u == After(env, t.s, step)
    ensures Possible(env, v) && v.s == u
  {
    LeadsOne(env, t.s, step, u);
    LeadsTo(env, EMPTY, t.steps, t.s, [step], u);
    v := Trace(t.steps + [step], u);
  }

  lemma ThenJoins(env: Env, t: Trace, h: string, start: int, end: int) returns (v: Trace)
    requires Possible(env, t) && (env.wholeLog ==> start == 0) && ZERO_TIME < t.s.now
    requires h != "" && h !in t.s.nodes && 0 <= start <= end <= |t.s.log|
    ensures Possible(env, v) && v.s == t.s.(nodes := t.s.nodes[h := Joined(env, h, start, end, t.s.now)])
  {
    v := Then(env, t, Joins(h, start, end, t.s.now), t.s.(nodes := t.s.nodes[h := Joined(env, h, start, end, t.s.now)]));
  }

  lemma ThenReads(env: Env, t: Trace, h: string, at: int) returns (v: Trace)
    requires Possible(env, t) && h in t.s.nodes && t.s.nodes[h].outbox.None? && 0 <= at < |t.s.log|
    requires env.wholeLog ==> at <= t.s.nodes[h].agent.nextOffset
    ensures Possible(env, v) && v.s == t.s.(nodes := t.s.nodes[h := ReadBy(env, h, t.s.nodes[h], t.s.log[at])])
  {
    v := Then(env, t, Reads(h, at), t.s.(nodes := t.s.nodes[h := ReadBy(env, h, t.s.nodes[h], t.s.log[at])]));
  }

  /** Any clock may run true. */
  lemma EvenTick(env: Env, dt: nat)
    requires env.Valid()
    ensures Ticking(env, dt, dt)
  {
    var n, d := env.rateNum, env.rateDen;
    assert (2 * d - n) * dt == d * dt + (d - n) * dt;
    assert d * dt == n * dt + (d - n) * dt;
    assert 0 <= (d - n) * dt;
  }

  lemma ThenWaits(env: Env, t: Trace, dt: nat) returns (v: Trace)
    requires Possible(env, t) && env.Valid()
    ensures Possible(env, v) && v.s.now == t.s.now + dt && v.s.log == t.s.log && v.s.nodes.Keys == t.s.nodes.Keys
    ensures forall h :: h in t.s.nodes ==> v.s.nodes[h] == t.s.nodes[h].(clock := t.s.nodes[h].clock + dt)
  {
    EvenTick(env, dt);
    var ticks := map h | h in t.s.nodes :: dt;
    assert ticks.Keys == t.s.nodes.Keys;
    v := Then(env, t, TimePasses(dt, ticks), After(env, t.s, TimePasses(dt, ticks)));
  }

  /** The node after reading log[lo..hi]. */
  function ReadOn(env: Env, h: string, n: Node, log: seq<Record>, lo: int, hi: int): Node
    requires 0 <= lo <= hi <= |log|
    decreases hi - lo
  {
    if lo == hi then n else ReadBy(env, h, ReadOn(env, h, n, log, lo, hi - 1), log[hi - 1])
  }

  lemma {:induction false} ReadOnFrame(env: Env, h: string, n: Node, log: seq<Record>, lo: int, hi: int)
    requires 0 <= lo <= hi <= |log|
    ensures ReadOn(env, h, n, log, lo, hi).outbox == n.outbox && ReadOn(env, h, n, log, lo, hi).clock == n.clock
    decreases hi - lo
  {
    if lo < hi {
      ReadOnFrame(env, h, n, log, lo, hi - 1);
    }
  }

  /** Only the records read matter. */
  lemma {:induction false} ReadOnSame(env: Env, h: string, n: Node, log: seq<Record>, log': seq<Record>, lo: int, hi: int)
    requires 0 <= lo <= hi <= |log| && hi <= |log'| && log[..hi] == log'[..hi]
    ensures ReadOn(env, h, n, log, lo, hi) == ReadOn(env, h, n, log', lo, hi)
    decreases hi - lo
  {
    if lo < hi {
      assert log[hi - 1] == log[..hi][hi - 1] == log'[hi - 1];
      assert log[..hi - 1] == log[..hi][..hi - 1] == log'[..hi - 1];
      ReadOnSame(env, h, n, log, log', lo, hi - 1);
    }
  }

  lemma {:induction false} ThenReadsOn(env: Env, t: Trace, h: string, lo: int, hi: int) returns (v: Trace)
    requires Possible(env, t) && !env.wholeLog && h in t.s.nodes && t.s.nodes[h].outbox.None? && 0 <= lo <= hi <= |t.s.log|
    ensures Possible(env, v) && v.s == t.s.(nodes := t.s.nodes[h := ReadOn(env, h, t.s.nodes[h], t.s.log, lo, hi)])
    decreases hi - lo
  {
    hide Possible, ReadBy;
    if lo == hi {
      v := t;
      assert t.s.nodes[h := t.s.nodes[h]] == t.s.nodes;
    } else {
      v := ThenReadsOn(env, t, h, lo, hi - 1);
      ReadOnFrame(env, h, t.s.nodes[h], t.s.log, lo, hi - 1);
      v := ThenReadsNext(env, t, v, h, lo, hi);
    }
  }

  lemma ThenReadsNext(env: Env, t: Trace, u: Trace, h: string, lo: int, hi: int) returns (v: Trace)
    requires Possible(env, u) && !env.wholeLog && h in t.s.nodes && 0 <= lo < hi <= |t.s.log|
    requires u.s == t.s.(nodes := t.s.nodes[h := ReadOn(env, h, t.s.nodes[h], t.s.log, lo, hi - 1)]) && u.s.nodes[h].outbox.None?
    ensures Possible(env, v) && v.s == t.s.(nodes := t.s.nodes[h := ReadOn(env, h, t.s.nodes[h], t.s.log, lo, hi)])
  {
    v := ThenReads(env, u, h, hi - 1);
    hide Possible, ReadBy;
    assert v.s.nodes == t.s.nodes[h := ReadOn(env, h, t.s.nodes[h], t.s.log, lo, hi)];
  }

  // ----- writing a record -----

  /** The node after a tick that writes, the landing of its record at offset k and the acknowledgement. */
  function Posted(env: Env, h: string, now: Time, n: Node, k: int): Node {
    var t := TickedBy(env, h, now, n);
    if t.flight.Flying? then AckedBy(env, h, LandedBy(t, t.flight.m, k)) else n
  }

  function PostedRecord(env: Env, h: string, now: Time, n: Node, k: int, stamp: Time): Record {
    var t := TickedBy(env, h, now, n);
    if t.flight.Flying? then Stamped(env, t.flight.m.rec, k, stamp) else Junk(k, stamp)
  }

  predicate Posts(env: Env, h: string, now: Time, n: Node) {
    && n.outbox.None? && n.flight == NoFlight && TickedBy(env, h, now, n).flight.Flying?
    && (QuietFires(env.Cfg(h), n.agent, n.clock) ==> now - env.fetchAge <= n.fetchedAt)
  }

  lemma ThenPosts(env: Env, t: Trace, h: string, stamp: Time) returns (v: Trace)
    requires Possible(env, t) && StampOk(env, t.s, stamp) && h in t.s.nodes && Posts(env, h, t.s.now, t.s.nodes[h])
    ensures Possible(env, v) && v.s.now == t.s.now
    ensures v.s.log == t.s.log + [PostedRecord(env, h, t.s.now, t.s.nodes[h], |t.s.log|, stamp)]
    ensures v.s.nodes == t.s.nodes[h := Posted(env, h, t.s.now, t.s.nodes[h], |t.s.log|)]
  {
    var s := t.s;
    var n := s.nodes[h];
    var ticked := TickedBy(env, h, s.now, n);
    var m := ticked.flight.m;
    var landed := LandedBy(ticked, m, |s.log|);
    v := Then(env, t, Ticks(h), s.(nodes := s.nodes[h := ticked]));
    v := ThenLands(env, v, h, m, stamp);
    assert v.s.nodes == s.nodes[h := landed];
    v := Then(env, v, AckArrives(h), v.s.(nodes := s.nodes[h := AckedBy(env, h, landed)]));
  }

  lemma ThenTicks(env: Env, t: Trace, h: string) returns (v: Trace)
    requires Possible(env, t) && h in t.s.nodes && t.s.nodes[h].outbox.None?
    requires QuietFires(env.Cfg(h), t.s.nodes[h].agent, t.s.nodes[h].clock) ==> t.s.now - env.fetchAge <= t.s.nodes[h].fetchedAt
    ensures Possible(env, v) && v.s == t.s.(nodes := t.s.nodes[h := TickedBy(env, h, t.s.now, t.s.nodes[h])])
  {
    v := Then(env, t, Ticks(h), t.s.(nodes := t.s.nodes[h := TickedBy(env, h, t.s.now, t.s.nodes[h])]));
  }

  lemma ThenFetches(env: Env, t: Trace, h: string) returns (v: Trace)
    requires Possible(env, t) && h in t.s.nodes && t.s.nodes[h].outbox.None?
    ensures Possible(env, v)
    ensures var n := t.s.nodes[h];
            v.s == t.s.(nodes := t.s.nodes[h := n.(agent := Fetched(n.agent, n.clock, |t.s.log|), fetchedAt := t.s.now)])
  {
    var n := t.s.nodes[h];
    var n' := n.(agent := Fetched(n.agent, n.clock, |t.s.log|), fetchedAt := t.s.now);
    v := Then(env, t, Fetches(h, |t.s.log|, t.s.now), t.s.(nodes := t.s.nodes[h := n']));
  }

  lemma ThenAcked(env: Env, t: Trace, h: string) returns (v: Trace)
    requires Possible(env, t) && h in t.s.nodes && t.s.nodes[h].outbox.None? && t.s.nodes[h].flight.Landed?
    ensures Possible(env, v) && v.s == t.s.(nodes := t.s.nodes[h := AckedBy(env, h, t.s.nodes[h])])
  {
    v := Then(env, t, AckArrives(h), t.s.(nodes := t.s.nodes[h := AckedBy(env, h, t.s.nodes[h])]));
  }

  lemma ThenLands(env: Env, t: Trace, h: string, m: Msg, stamp: Time) returns (v: Trace)
    requires Possible(env, t) && StampOk(env, t.s, stamp) && h in t.s.nodes && m in t.s.nodes[h].wire && t.s.nodes[h].outbox != Some(m)
    ensures Possible(env, v) && v.s.now == t.s.now
    ensures v.s.log == t.s.log + [Stamped(env, m.rec, |t.s.log|, stamp)]
    ensures v.s.nodes == t.s.nodes[h := LandedBy(t.s.nodes[h], m, |t.s.log|)]
  {
    v := Then(env, t, Lands(h, m, stamp), After(env, t.s, Lands(h, m, stamp)));
  }

  // ----- reading one's own claim back -----

  /** A claim sent at `sent` landed at offset `mine` and was acknowledged; h has read up to `next`, and
      its view is v. */
  ghost predicate Awaits(n: Node, sent: Time, mine: int, next: int, v: Views.ViewState) {
    && n.outbox.None? && n.flight.Landed? && n.flight.at == mine && 0 <= next <= mine
    && n.agent.inflight == Some(Inflight(Claim, sent, mine)) && n.agent.deadline == ZERO_TIME && 0 < n.clock
    && n.agent.nextOffset == next && n.agent.view == v && v.lastOffset < next
  }

  lemma PostedAwaits(env: Env, h: string, now: Time, n: Node, k: int)
    requires Posts(env, h, now, n) && PostedRecord(env, h, now, n, k, now).kind == Claim
    requires 0 < n.clock && 0 <= n.agent.nextOffset <= k && n.agent.view.lastOffset < n.agent.nextOffset && n.agent.ownOutcomes == map[]
    requires n.agent.view.certain
    ensures Awaits(Posted(env, h, now, n, k), n.clock, k, n.agent.nextOffset, n.agent.view)
    ensures Posted(env, h, now, n, k).clock == n.clock
  {
  }

  /** Somebody else's record moves the view and nothing else that matters. */
  lemma AwaitsOn(env: Env, h: string, n: Node, sent: Time, mine: int, v: Views.ViewState, r: Record)
    requires Awaits(n, sent, mine, r.offset, v) && r.offset < mine && r.kind != Unknown && r.holder != h
    ensures Awaits(ReadBy(env, h, n, r), sent, mine, r.offset + 1, Views.Apply(v, r).view)
    ensures var n' := ReadBy(env, h, n, r);
            n'.clock == n.clock && n'.wire == n.wire && n'.nextId == n.nextId && n'.agent.lastSend == n.agent.lastSend
  {
  }

  /** By its own fold the claim is accepted. */
  lemma AwaitsBelieves(env: Env, h: string, n: Node, sent: Time, mine: int, v: Views.ViewState, r: Record)
    requires Awaits(n, sent, mine, mine, v) && h != ""
    requires r.offset == mine && r.kind == Claim && r.holder == h && r.ttl == env.wireTtl && 0 < env.wireTtl <= env.ttl == v.ttl
    requires v.certain && !v.state.HeldAt(Clamp(v.clock, r).timestamp)
    requires n.clock < sent + (env.ttl - env.margin)
    ensures Believing(ReadBy(env, h, n, r).agent, ReadBy(env, h, n, r).clock)
    ensures var n' := ReadBy(env, h, n, r);
            n' == n.(agent := n'.agent, flight := NoFlight, backing := mine)
            && n'.agent.inflight.None? && n'.agent.epoch == mine && n'.agent.nextOffset == mine + 1
            && n'.agent.deadline == sent + (env.ttl - env.margin) && n'.agent.view == Views.Apply(v, r).view
            && n'.agent.ownOutcomes == map[] && n'.agent.lastSend == n.agent.lastSend
  {
  }

  // ----- giving up the lease -----

  /** A release decided, published and produced. */
  function Resigned(env: Env, h: string, now: Time, n: Node): Node {
    PublishedBy(ReleasedBy(env, h, now, n)).(outbox := None)
  }

  lemma ThenResigns(env: Env, t: Trace, h: string) returns (v: Trace)
    requires Possible(env, t) && h in t.s.nodes && t.s.nodes[h].outbox.None?
    requires env.soloRelease ==> t.s.nodes[h].agent.inflight.None?
    requires ReleasedBy(env, h, t.s.now, t.s.nodes[h]).outbox.Some?
    ensures Possible(env, v) && v.s == t.s.(nodes := t.s.nodes[h := Resigned(env, h, t.s.now, t.s.nodes[h])])
  {
    hide Possible;
    var s := t.s;
    var released := ReleasedBy(env, h, s.now, s.nodes[h]);
    v := Then(env, t, Releases(h), s.(nodes := s.nodes[h := released]));
    v := Then(env, v, Publishes(h), s.(nodes := s.nodes[h := PublishedBy(released)]));
    v := Then(env, v, Produces(h), s.(nodes := s.nodes[h := Resigned(env, h, s.now, s.nodes[h])]));
  }
}
