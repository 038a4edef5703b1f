/**
 What a participant does with its own records, when it writes, and what ends its belief: not only what it
 must not do, but what it does.
 */
module Conduct {
  import opened Records
  import opened LeaseFold
  import opened Agents
  import opened Systems
  import LocalSteps
  import Views

  // ----- acknowledgement and read-back in either order -----

  /** A verdict that comes before the acknowledgement is kept for it. */
  lemma VerdictIsKept(cfg: Config, a: AgentState, now: Time, k: int, kind: Kind, out: Outcome)
    requires k != -1 && k !in a.ownOutcomes && (a.inflight.Some? ==> a.inflight.value.offset == -1)
    ensures Acked(cfg, OwnRecord(cfg, a, now, k, kind, out), now, Some(k)) == OwnRecord(cfg, Acked(cfg, a, now, Some(k)), now, k, kind, out)
  {
  }

  /** What a participant's own view makes of a record that is its own. */
  ghost predicate IsOwn(cfg: Config, a: AgentState, r: Record) {
    && a.inflight.Some? && a.inflight.value.offset == -1 && a.inflight.value.kind == r.kind && r.kind in {Claim, Renew}
    && r.holder == cfg.holder && cfg.holder != "" && r.offset != -1 && r.offset !in a.ownOutcomes && a.nextOffset <= r.offset
    && (r.kind == Renew ==> r.epoch == a.epoch)
  }

  /** A verdict is always the fold's, on some state. */
  lemma EndsInFold(u: Views.ViewState, r: Record) returns (s: State)
    requires Views.Apply(u, r).ok && Views.Apply(u, r).outcome != Pending
    ensures var a := Views.Apply(u, r);
            a.view.certain && a.view.clock == Clamp(u.clock, r).timestamp && (a.view.state, a.outcome) == Fold(u.ttl, s, Clamp(u.clock, r))
  {
    var c := Clamp(u.clock, r);
    var w := if Views.Silent(u, c) then Views.SetFree(Views.Advance(u, c)) else Views.Advance(u, c);
    if w.certain {
      s := w.state;
    } else {
      var i := Views.FindAnchor(w.pending, c.Term().0, c.Term().1);
      var p := w.pending[i];
      s := Views.Replay(w.ttl, State(c.Term().0, c.Term().1, p.timestamp + p.ttl), w.pending[i + 1..]);
    }
    hide Fold;
  }

  lemma AcceptedShows(u: Views.ViewState, r: Record)
    requires Views.Apply(u, r).ok && Views.Apply(u, r).outcome == Accepted && r.kind in {Claim, Renew} && r.holder != ""
    ensures var v := Views.Apply(u, r).view;
            v.certain && v.state.holder == r.holder && v.state.epoch == r.Term().1 && v.state.HeldAt(v.clock)
  {
    var s := EndsInFold(u, r);
    hide Views.Apply;
  }

  function Informed(a: AgentState, k: int): AgentState
    requires a.inflight.Some?
  {
    a.(inflight := Some(a.inflight.value.(offset := k)))
  }

  /** What the view says goes with the verdict. */
  predicate Fits(cfg: Config, a: AgentState, k: int, out: Outcome)
    requires a.inflight.Some?
  {
    var kind, s := a.inflight.value.kind, a.view.state;
    && kind in {Claim, Renew} && cfg.holder != ""
    && (out == Pending ==> !a.view.certain)
    && (out == Accepted ==>
          s.holder == cfg.holder && s.epoch == (if kind == Claim then k else a.epoch) && s.HeldAt(a.view.clock))
  }

  lemma CheckThenSettle(cfg: Config, a: AgentState, now: Time, k: int, out: Outcome)
    requires a.inflight.Some? && Fits(cfg, a, k, out) && (a.inflight.value.kind == Claim ==> !Believing(a, now))
    ensures CheckTerm(cfg, a.(ownOutcomes := a.ownOutcomes[k := out]), now).inflight == a.inflight
    ensures Settle(cfg, Informed(CheckTerm(cfg, a.(ownOutcomes := a.ownOutcomes[k := out]), now), k), now, out)
         == CheckTerm(cfg, Settle(cfg, Informed(a, k), now, out), now)
  {
  }

  /** Reading first: the verdict is kept, the term checked, and the acknowledgement settles. */
  lemma ReadThenAck(cfg: Config, a: AgentState, now: Time, r: Record)
    requires IsOwn(cfg, a, r) && Views.Apply(MoveTo(a, now, r).view, r).ok
    ensures var applied := Views.Apply(MoveTo(a, now, r).view, r);
            var c := MoveTo(a, now, r).(view := applied.view);
            var b := CheckTerm(cfg, c.(ownOutcomes := c.ownOutcomes[r.offset := applied.outcome]), now);
            c.inflight == a.inflight == b.inflight && c.ownOutcomes == a.ownOutcomes && c.deadline == a.deadline && c.epoch == a.epoch
            && Acked(cfg, Agents.Read(cfg, a, now, r).0, now, Some(r.offset)) == Settle(cfg, Informed(b, r.offset), now, applied.outcome)
  {
    hide Views.Apply, Settle;
  }

  lemma AckThenRead(cfg: Config, a: AgentState, now: Time, r: Record)
    requires IsOwn(cfg, a, r) && Views.Apply(MoveTo(a, now, r).view, r).ok
    ensures var applied := Views.Apply(MoveTo(a, now, r).view, r);
            var c := MoveTo(a, now, r).(view := applied.view);
            c.inflight == a.inflight
            && Agents.Read(cfg, Acked(cfg, a, now, Some(r.offset)), now, r).0
            == CheckTerm(cfg, Settle(cfg, Informed(c, r.offset), now, applied.outcome), now)
  {
    var i := Informed(a, r.offset);
    assert Acked(cfg, a, now, Some(r.offset)) == i;
    assert MoveTo(i, now, r).view == MoveTo(a, now, r).view;
    hide Views.Apply, Settle, CheckTerm;
  }

  /** The belief needs the acknowledgement and the read-back, in either order: reading one's own record and then
      learning its offset leaves a participant exactly where learning the offset and then reading does. */
  lemma ReadAndAckCommute(cfg: Config, a: AgentState, now: Time, r: Record)
    requires IsOwn(cfg, a, r) && (r.kind == Claim ==> !Believing(a, now))
    requires Views.Apply(MoveTo(a, now, r).view, r).ok
    ensures Acked(cfg, Agents.Read(cfg, a, now, r).0, now, Some(r.offset)) == Agents.Read(cfg, Acked(cfg, a, now, Some(r.offset)), now, r).0
  {
    var b := MoveTo(a, now, r);
    var applied := Views.Apply(b.view, r);
    if applied.outcome == Accepted {
      AcceptedShows(b.view, r);
    }
    Views.ApplyContract(b.view, r);
    ReadThenAck(cfg, a, now, r);
    AckThenRead(cfg, a, now, r);
    hide Views.Apply, Settle, CheckTerm, Acked, Agents.Read, OwnRecord;
    CheckThenSettle(cfg, b.(view := applied.view), now, r.offset, applied.outcome);
  }

  // ----- what is acknowledged and read is settled -----

  /** What a participant knows of its record in flight, where readers miss nothing. */
  ghost predicate Tracked(env: Env, log: seq<Record>, h: string, n: Node) {
    var a := n.agent;
    && 0 <= a.nextOffset <= |log| && a.view.certain && a.view.lastOffset < a.nextOffset
    && (a.inflight.Some? <==> n.flight != NoFlight)
    && (forall m :: m in n.wire ==> m.rec.holder == h && m.rec.kind != Unknown)
    && (n.flight.Flying? ==> a.inflight.value.offset == -1 && a.inflight.value.kind == n.flight.m.rec.kind && n.flight.m.rec.holder == h && n.flight.m.rec.kind != Unknown)
    && (n.flight.Landed? ==>
          var k := n.flight.at;
          && 0 <= k < |log| && log[k].holder == h && log[k].kind == a.inflight.value.kind != Unknown && a.inflight.value.offset in {-1, k}
          && (k < a.nextOffset ==> a.inflight.value.offset == -1 && k in a.ownOutcomes))
  }

  /** c is the agent of n with its view moved past the record r. */
  ghost predicate Moved(n: Node, c: AgentState, r: Record) {
    && c.nextOffset == r.offset + 1 && c.view.certain && c.view.lastOffset < c.nextOffset
    && c.inflight == n.agent.inflight && c.ownOutcomes == n.agent.ownOutcomes
  }

  lemma TrackedOwn(env: Env, log: seq<Record>, h: string, n: Node, c: AgentState, out: Outcome)
    requires Tracked(env, log, h, n) && n.agent.nextOffset < |log| && log[n.agent.nextOffset].offset == n.agent.nextOffset
    requires Moved(n, c, log[n.agent.nextOffset]) && log[n.agent.nextOffset].kind != Unknown
    ensures var r := log[n.agent.nextOffset];
            Tracked(env, log, h, Resolved(n, if r.holder == h then OwnRecord(env.Cfg(h), c, n.clock, r.offset, r.kind, out) else c))
  {
  }

  lemma ChecksKeepTracked(env: Env, log: seq<Record>, h: string, n: Node, d: AgentState)
    requires Tracked(env, log, h, Resolved(n, d))
    ensures Tracked(env, log, h, Resolved(n, CheckTerm(env.Cfg(h), d, n.clock)))
  {
  }

  lemma TrackedRead(env: Env, log: seq<Record>, h: string, n: Node)
    requires Indexed(log) && Tracked(env, log, h, n) && n.agent.nextOffset < |log|
    ensures Tracked(env, log, h, ReadBy(env, h, n, log[n.agent.nextOffset]))
  {
    var r := log[n.agent.nextOffset];
    var b := MoveTo(n.agent, n.clock, r);
    assert b.view == n.agent.view && b.(view := n.agent.view) == b;
    Views.ApplyContract(n.agent.view, r);
    hide Views.Apply, OwnRecord, CheckTerm;
    if r.kind != Unknown {
      var applied := Views.Apply(b.view, r);
      var c := b.(view := applied.view);
      TrackedOwn(env, log, h, n, c, applied.outcome);
      var d := if r.holder == h then OwnRecord(env.Cfg(h), c, n.clock, r.offset, r.kind, applied.outcome) else c;
      ChecksKeepTracked(env, log, h, n, d);
    }
  }

  lemma TrackedNode(env: Env, s: Sys, step: Step)
    requires env.wholeLog && Enabled(env, s, step) && IsLocal(step) && step.h in s.nodes && Indexed(s.log)
    requires Tracked(env, s.log, step.h, s.nodes[step.h])
    ensures Tracked(env, s.log, step.h, NodeAfter(env, s.now, s.log, s.nodes[step.h], step))
  {
    var h, n := step.h, s.nodes[step.h];
    match step {
      case Reads(_, at) =>
        if at == n.agent.nextOffset {
          TrackedRead(env, s.log, h, n);
        } else {
          assert ReadBy(env, h, n, s.log[at]).agent == n.agent;
        }
      case AckArrives(_) => TrackedAck(env, s.log, h, n);
      case Ticks(_) => TrackedTick(env, s.log, h, s.now, n);
      case _ => TrackedElse(env, s, step);
    }
  }

  lemma TrackedAck(env: Env, log: seq<Record>, h: string, n: Node)
    requires Tracked(env, log, h, n) && n.flight.Landed?
    ensures Tracked(env, log, h, AckedBy(env, h, n))
  {
  }

  lemma TrackedTick(env: Env, log: seq<Record>, h: string, now: Time, n: Node)
    requires Tracked(env, log, h, n)
    ensures Tracked(env, log, h, TickedBy(env, h, now, n))
  {
  }

  lemma TrackedElse(env: Env, s: Sys, step: Step)
    requires Enabled(env, s, step) && IsLocal(step) && !step.Reads? && !step.AckArrives? && !step.Ticks?
    requires step.h in s.nodes && Tracked(env, s.log, step.h, s.nodes[step.h])
    ensures Tracked(env, s.log, step.h, NodeAfter(env, s.now, s.log, s.nodes[step.h], step))
  {
  }

  lemma TrackedStep(env: Env, s: Sys, step: Step, h: string)
    requires env.wholeLog && Enabled(env, s, step) && Indexed(s.log) && h in s.nodes && Tracked(env, s.log, h, s.nodes[h])
    ensures h in After(env, s, step).nodes && Tracked(env, After(env, s, step).log, h, After(env, s, step).nodes[h])
  {
    match step {
      case TimePasses(_, _) =>
      case JunkLands(_) =>
      case Lands(_, _, _) =>
      case Joins(_, _, _, _) =>
      case _ =>
        if step.h == h {
          TrackedNode(env, s, step);
        }
    }
  }

  lemma {:induction false} IsIndexed(env: Env, run: seq<Sys>, steps: seq<Step>, i: int)
    requires IsRun(env, run, steps) && 0 <= i < |run|
    ensures Indexed(run[i].log)
    decreases i
  {
    if i > 0 {
      IsIndexed(env, run, steps, i - 1);
      assert run[i] == After(env, run[i - 1], steps[i - 1]);
    }
  }

  lemma NewcomerIsTracked(env: Env, s: Sys, step: Step, h: string)
    requires env.wholeLog && Enabled(env, s, step) && h !in s.nodes && h in After(env, s, step).nodes
    ensures Tracked(env, After(env, s, step).log, h, After(env, s, step).nodes[h])
  {
  }

  lemma {:induction false} IsTracked(env: Env, run: seq<Sys>, steps: seq<Step>, i: int, h: string)
    requires env.wholeLog && IsRun(env, run, steps) && 0 <= i < |run| && h in run[i].nodes
    ensures Tracked(env, run[i].log, h, run[i].nodes[h])
    decreases i
  {
    if i > 0 {
      IsIndexed(env, run, steps, i - 1);
      if h in run[i - 1].nodes {
        IsTracked(env, run, steps, i - 1, h);
        TrackedStep(env, run[i - 1], steps[i - 1], h);
      } else {
        NewcomerIsTracked(env, run[i - 1], steps[i - 1], h);
      }
    }
  }

  /** In any run of readers that miss nothing: a record that is acknowledged and read is not in flight any more. */
  lemma SettledOnceKnown(env: Env, run: seq<Sys>, steps: seq<Step>, i: int, h: string)
    requires env.wholeLog && IsRun(env, run, steps) && 0 <= i < |run| && h in run[i].nodes && run[i].nodes[h].flight.Landed?
    ensures var n := run[i].nodes[h];
            n.agent.inflight.Some? && (n.agent.inflight.value.offset == n.flight.at ==> n.agent.nextOffset <= n.flight.at)
  {
    IsTracked(env, run, steps, i, h);
  }

  // ----- when it writes -----

  /** Exactly when a tick writes, and what: a believer a renew of its epoch, once the renew interval since its last claim
      or renew has gone by; anyone else a claim, once its wait is over and the lease looks free; and only on a certain
      view with nothing in flight. */
  lemma WritesExactly(cfg: Config, a: AgentState, now: Time)
    requires ZERO_TIME <= now
    ensures var (b, rec) := Tick(cfg, a, now);
            var heard := Listen(cfg, a, now);
            var free := !heard.view.state.HeldAt(BrokerNow(heard, now));
            var ready := a.inflight.None? && heard.view.certain;
            (rec == Some(Record(0, ZERO_TIME, Renew, cfg.holder, a.epoch, cfg.ttl)) <==>
               ready && now < a.deadline && a.lastSend + cfg.renewEvery <= now)
            && (rec == Some(Record(0, ZERO_TIME, Claim, cfg.holder, 0, cfg.ttl)) <==>
                  ready && a.deadline <= now && a.nextClaimAt < now && free)
            && (rec.Some? ==>
                  rec.value.kind in {Claim, Renew}
                  && (rec.value.kind == Renew ==> rec.value == Record(0, ZERO_TIME, Renew, cfg.holder, a.epoch, cfg.ttl))
                  && (rec.value.kind == Claim ==> rec.value == Record(0, ZERO_TIME, Claim, cfg.holder, 0, cfg.ttl))
                  && b.inflight == Some(Inflight(rec.value.kind, now, -1)) && b.lastSend == now)
            && (rec.None? ==> b.inflight == a.inflight && b.lastSend == a.lastSend)
            && (now < b.deadline <==> now < a.deadline) && b.epoch == a.epoch
  {
    ListensOnly(cfg, a, now);
    hide Listen, QuietFires;
  }

  lemma ListensOnly(cfg: Config, a: AgentState, now: Time)
    requires ZERO_TIME <= now
    ensures Listen(cfg, Expire(a, now), now) == Expire(Listen(cfg, a, now), now)
    ensures Listen(cfg, a, now) == a.(view := Listen(cfg, a, now).view)
    ensures Expire(a, now) == a.(deadline := if now < a.deadline then a.deadline else ZERO_TIME)
    ensures Expire(Listen(cfg, a, now), now) == Listen(cfg, a, now).(deadline := if now < a.deadline then a.deadline else ZERO_TIME)
  {
  }

  /** h writes at this step, at this time on its clock. */
  predicate Writes(env: Env, s: Sys, step: Step, h: string) {
    step == Ticks(h) && h in s.nodes && Tick(env.Cfg(h), s.nodes[h].agent, s.nodes[h].clock).1.Some?
  }

  lemma LastSendStays(env: Env, s: Sys, step: Step, h: string)
    requires env.Valid() && Enabled(env, s, step) && h in s.nodes
    ensures var s' := After(env, s, step);
            h in s'.nodes && s.nodes[h].clock <= s'.nodes[h].clock
            && s'.nodes[h].agent.lastSend == if Writes(env, s, step, h) then s.nodes[h].clock else s.nodes[h].agent.lastSend
  {
    match step {
      case TimePasses(dt, ticks) =>
        LocalSteps.ClockAdvances(env, dt, ticks[h]);
      case JunkLands(_) =>
      case Lands(_, _, _) =>
      case Joins(_, _, _, _) =>
      case _ =>
        if step.h == h {
          LastSendOfNode(env, s, step);
        }
    }
  }

  lemma ReadLastSend(cfg: Config, a: AgentState, now: Time, r: Record)
    ensures Agents.Read(cfg, a, now, r).0.lastSend == a.lastSend
  {
    hide Views.Apply;
  }

  lemma LastSendOfNode(env: Env, s: Sys, step: Step)
    requires Enabled(env, s, step) && IsLocal(step) && step.h in s.nodes
    ensures var n, n' := s.nodes[step.h], NodeAfter(env, s.now, s.log, s.nodes[step.h], step);
            n'.clock == n.clock && n'.agent.lastSend == if Writes(env, s, step, step.h) then n.clock else n.agent.lastSend
  {
    if step.Reads? {
      ReadLastSend(env.Cfg(step.h), s.nodes[step.h].agent, s.nodes[step.h].clock, s.log[step.at]);
      hide Agents.Read;
    }
  }

  lemma {:induction false} ClockIsPositive(env: Env, run: seq<Sys>, steps: seq<Step>, i: int, h: string)
    requires env.Valid() && IsRun(env, run, steps) && 0 <= i < |run| && h in run[i].nodes
    ensures ZERO_TIME < run[i].nodes[h].clock
    decreases i
  {
    if i > 0 && h in run[i - 1].nodes {
      ClockIsPositive(env, run, steps, i - 1, h);
      LastSendStays(env, run[i - 1], steps[i - 1], h);
    }
  }

  /** Since h wrote at step i, its last send lies no earlier than that and no later than its clock. */
  lemma {:induction false} SentBefore(env: Env, run: seq<Sys>, steps: seq<Step>, i: int, j: int, h: string)
    requires env.Valid() && IsRun(env, run, steps) && 0 <= i < j < |run| && Writes(env, run[i], steps[i], h)
    ensures h in run[j].nodes && run[i].nodes[h].clock <= run[j].nodes[h].agent.lastSend <= run[j].nodes[h].clock
    decreases j
  {
    if j == i + 1 {
      LastSendStays(env, run[i], steps[i], h);
    } else {
      SentBefore(env, run, steps, i, j - 1, h);
      LastSendStays(env, run[j - 1], steps[j - 1], h);
    }
  }

  /** In any run, a renew is sent no earlier than the renew interval after whatever claim or renew its writer sent
      before, by its own clock. */
  lemma RenewsArePaced(env: Env, run: seq<Sys>, steps: seq<Step>, i: int, j: int, h: string)
    requires env.Valid() && IsRun(env, run, steps) && 0 <= i < j < |steps|
    requires Writes(env, run[i], steps[i], h) && Writes(env, run[j], steps[j], h)
    ensures run[i + 1].nodes.Keys >= {h} && run[j + 1].nodes.Keys >= {h}
    ensures var first, second := run[i + 1].nodes[h].flight, run[j + 1].nodes[h].flight;
            first.Flying? && second.Flying? && second.m in run[j + 1].nodes[h].wire
            && (second.m.rec.kind == Renew ==> first.m.sent.local + env.renewEvery <= second.m.sent.local)
  {
    SentBefore(env, run, steps, i, j, h);
    ClockIsPositive(env, run, steps, j, h);
    Sends(env, run[i], h);
    Sends(env, run[j], h);
    var n := run[j].nodes[h];
    WritesExactly(env.Cfg(h), n.agent, n.clock);
    hide Tick, After, Enabled;
  }

  lemma Sends(env: Env, s: Sys, h: string)
    requires Writes(env, s, Ticks(h), h) && Enabled(env, s, Ticks(h))
    ensures var s', n := After(env, s, Ticks(h)), s.nodes[h];
            h in s'.nodes && s'.nodes[h].flight.Flying? && s'.nodes[h].flight.m in s'.nodes[h].wire
            && s'.nodes[h].flight.m.rec == Tick(env.Cfg(h), n.agent, n.clock).1.value && s'.nodes[h].flight.m.sent == Sent(s.now, n.clock)
  {
    hide Tick;
  }

  // ----- what ends a belief -----

  /** Somebody else's record ends a belief exactly when the view, if it is certain, does not show the term alive
      after it; and whatever was read, a belief that goes on on a certain view is one the view shows. */
  lemma ReadChecksTerm(cfg: Config, a: AgentState, now: Time, r: Record)
    requires a.nextOffset <= r.offset && r.kind != Unknown && Views.Apply(MoveTo(a, now, r).view, r).ok && ZERO_TIME <= now
    ensures var b := Agents.Read(cfg, a, now, r).0;
            var shown := b.view.state.holder == cfg.holder && b.view.state.epoch == b.epoch && b.view.state.HeldAt(b.view.clock);
            (Believing(b, now) && b.view.certain ==> shown)
            && (r.holder != cfg.holder && Believing(a, now) ==>
                  b.epoch == a.epoch && (Believing(b, now) <==> !b.view.certain || shown) && (Believing(b, now) ==> b.deadline == a.deadline))
            && (r.holder != cfg.holder && !Believing(a, now) ==> !Believing(b, now))
  {
    hide Views.Apply;
  }

  /** Giving up: a believer stops believing for good and gets a release of its own epoch; anyone else writes nothing
      and changes nothing. */
  lemma GivesUpExactly(cfg: Config, a: AgentState, now: Time)
    requires ZERO_TIME <= now
    ensures var (b, rec) := GiveUp(cfg, a, now);
            (rec.Some? <==> now < a.deadline)
            && (rec.Some? ==> rec.value == Record(0, ZERO_TIME, Release, cfg.holder, a.epoch, cfg.ttl))
            && (forall t :: now <= t ==> !Believing(b, t))
            && b == a.(deadline := b.deadline)
  {
  }

  // ----- the rest -----

  /** A record that the view could not judge is no longer in flight, and nothing else comes of it. */
  lemma UnjudgedSettles(cfg: Config, a: AgentState, now: Time)
    requires a.inflight.Some?
    ensures Settle(cfg, a, now, Pending) == a.(inflight := None, ownOutcomes := map[])
  {
  }

  /** An answer with nothing in flight is ignored. */
  lemma StrayAnswer(cfg: Config, a: AgentState, now: Time, answer: Option<int>)
    requires a.inflight.None?
    ensures Acked(cfg, a, now, answer) == a
  {
  }

  /** A newcomer believes nothing, has nothing under way, stands at the start of the log, and is certain exactly if that is
      offset 0. */
  lemma StartsClean(cfg: Config, start: int, end: int, now: Time)
    requires ZERO_TIME <= now
    ensures var a := New(cfg, start, end, now);
            (a.view.certain <==> start == 0) && (forall t :: ZERO_TIME <= t ==> !Believing(a, t) && !a.view.state.HeldAt(t))
            && a.inflight.None? && a.ownOutcomes == map[] && a.nextOffset == start && a.highWater == end && a.view.ttl == cfg.ttl
            && a.connected && QuietSince(a) == now
  {
  }

  /** Read reports an error exactly if the view refuses a record at a new offset. */
  lemma ReadErrs(cfg: Config, a: AgentState, now: Time, r: Record)
    ensures Agents.Read(cfg, a, now, r).1 <==> r.offset < a.nextOffset || r.kind == Unknown || a.view.lastOffset < r.offset
  {
  }

  lemma KeepsPosition(cfg: Config, a: AgentState, now: Time, r: Record)
    requires a.view.lastOffset < a.nextOffset
    ensures var b := Agents.Read(cfg, a, now, r).0; b.view.lastOffset < b.nextOffset
  {
    if a.nextOffset <= r.offset && r.kind != Unknown {
      var b := MoveTo(a, now, r);
      var applied := Views.Apply(b.view, r);
      var c := b.(view := applied.view);
      Views.ApplyContract(b.view, r);
      OwnRecordKeepsView(cfg, c, now, r, applied.outcome);
      var d := if r.holder == cfg.holder then OwnRecord(cfg, c, now, r.offset, r.kind, applied.outcome) else c;
      assert CheckTerm(cfg, d, now).(deadline := d.deadline) == d;
      hide Views.Apply, OwnRecord, CheckTerm;
    }
  }

  lemma OwnRecordKeepsView(cfg: Config, c: AgentState, now: Time, r: Record, out: Outcome)
    ensures var d := OwnRecord(cfg, c, now, r.offset, r.kind, out); d.view == c.view && d.nextOffset == c.nextOffset
  {
  }

  lemma PositionStep(env: Env, s: Sys, step: Step, h: string)
    requires Enabled(env, s, step) && h in s.nodes && s.nodes[h].agent.view.lastOffset < s.nodes[h].agent.nextOffset
    ensures h in After(env, s, step).nodes && var b := After(env, s, step).nodes[h].agent; b.view.lastOffset < b.nextOffset
  {
    if IsLocal(step) && step.h == h {
      PositionOfNode(env, s, step);
      hide NodeAfter;
    }
  }

  lemma PositionOfNode(env: Env, s: Sys, step: Step)
    requires Enabled(env, s, step) && IsLocal(step) && step.h in s.nodes
    requires s.nodes[step.h].agent.view.lastOffset < s.nodes[step.h].agent.nextOffset
    ensures var b := NodeAfter(env, s.now, s.log, s.nodes[step.h], step).agent; b.view.lastOffset < b.nextOffset
  {
    hide Agents.Read, Views.Apply;
    if step.Reads? {
      KeepsPosition(env.Cfg(step.h), s.nodes[step.h].agent, s.nodes[step.h].clock, s.log[step.at]);
    }
  }

  /** In no run does a participant meet that error. */
  lemma {:induction false} ReadsNeverFail(env: Env, run: seq<Sys>, steps: seq<Step>, i: int, h: string, now: Time, r: Record)
    requires IsRun(env, run, steps) && 0 <= i < |run| && h in run[i].nodes
    ensures run[i].nodes[h].agent.view.lastOffset < run[i].nodes[h].agent.nextOffset
    ensures Agents.Read(env.Cfg(h), run[i].nodes[h].agent, now, r).1
    decreases i
  {
    if i > 0 && h in run[i - 1].nodes {
      ReadsNeverFail(env, run, steps, i - 1, h, now, r);
      PositionStep(env, run[i - 1], steps[i - 1], h);
    }
    ReadErrs(env.Cfg(h), run[i].nodes[h].agent, now, r);
  }
}
