/**
 The log decides: where readers miss nothing, what becomes of a participant's belief when its record in flight
 is settled is what the fold of the whole log says about that record, whichever of acknowledgement and
 read-back came first.
 */
module Settlements {
  import opened Records
  import opened LeaseFold
  import opened Agents
  import opened Systems
  import opened Conduct
  import Views

  /** Views, kept verdicts and the record in flight go with the log. */
  ghost predicate Judged(env: Env, log: seq<Record>, n: Node) {
    var a := n.agent;
    && 0 <= a.nextOffset <= |log| && a.view.ttl == env.ttl
    && Truth(a.view.state, a.view.clock) == TruthOf(env.ttl, log[..a.nextOffset])
    && (forall o {:trigger o in a.ownOutcomes} :: o in a.ownOutcomes ==> 0 <= o < a.nextOffset && a.ownOutcomes[o] == Verdict(env.ttl, log, o))
    && (a.inflight.Some? && n.flight != NoFlight ==>
          var f, m := a.inflight.value, n.flight.m;
          && f.sentAt == m.sent.local && f.kind == m.rec.kind && f.kind in {Claim, Renew}
          && (f.kind == Claim ==> a.deadline == ZERO_TIME)
          && (f.kind == Renew ==> m.rec.epoch == a.epoch)
          && (n.flight.Landed? ==> 0 <= n.flight.at < |log| && log[n.flight.at].epoch == m.rec.epoch))
  }

  lemma JudgedGrows(env: Env, log: seq<Record>, r: Record, n: Node)
    requires Judged(env, log, n)
    ensures Judged(env, log + [r], n)
  {
    VerdictStands(env.ttl, log, r);
    PrefixesOfAppend(log, r);
  }

  /** What reading the next record does, in the view's terms and in the log's. */
  lemma ReadsTheLog(env: Env, log: seq<Record>, h: string, n: Node)
    requires Indexed(log) && Judged(env, log, n) && Tracked(env, log, h, n) && n.agent.nextOffset < |log|
    ensures var k := n.agent.nextOffset;
            var applied := Views.Apply(n.agent.view, log[k]);
            MoveTo(n.agent, n.clock, log[k]).view == n.agent.view
            && (log[k].kind == Unknown ==> TruthOf(env.ttl, log[..k + 1]) == TruthOf(env.ttl, log[..k]))
            && (log[k].kind != Unknown ==>
                  applied.ok && applied.view.certain && applied.outcome == Verdict(env.ttl, log, k) && applied.view.ttl == env.ttl
                  && Truth(applied.view.state, applied.view.clock) == TruthOf(env.ttl, log[..k + 1]))
  {
    TruthOfNext(env.ttl, log, n.agent.nextOffset);
  }

  /** What the verdict on the record in flight makes of the belief. A record that lands late still counts from its
      send, and a renew never revives a belief. */
  ghost predicate Follows(env: Env, h: string, n: Node, b: AgentState, out: Outcome)
    requires n.agent.inflight.Some? && n.flight.Landed?
  {
    var a, kind, until := n.agent, n.agent.inflight.value.kind, n.flight.m.sent.local + (env.ttl - env.margin);
    && b.inflight.None? && b.ownOutcomes == map[]
    && (kind == Claim && out == Accepted ==> b.epoch == n.flight.at && b.deadline == until)
    && (kind == Claim && out != Accepted ==>
          b.epoch == a.epoch && b.deadline == a.deadline && n.clock + env.Cfg(h).PollEvery() <= b.nextClaimAt <= n.clock + env.ttl)
    && (kind == Renew ==> b.epoch == a.epoch)
    && (kind == Renew && out == Accepted ==> if Believing(a, n.clock) then b.deadline == until else !Believing(b, n.clock))
    && (kind == Renew && out != Accepted ==> b.deadline == ZERO_TIME)
  }

  lemma SettleFollows(env: Env, h: string, log: seq<Record>, n: Node, a: AgentState, out: Outcome)
    requires env.Valid() && Judged(env, log, n) && n.agent.inflight.Some? && n.flight.Landed? && out in {Accepted, Rejected}
    requires a.inflight == Some(n.agent.inflight.value.(offset := n.flight.at)) && a.epoch == n.agent.epoch && a.deadline == n.agent.deadline
    ensures Follows(env, h, n, Settle(env.Cfg(h), a, n.clock, out), out)
  {
  }

  lemma CheckFollows(env: Env, h: string, n: Node, b: AgentState, out: Outcome)
    requires n.agent.inflight.Some? && n.flight.Landed? && Follows(env, h, n, b, out) && n.agent.inflight.value.kind in {Claim, Renew}
    requires n.agent.inflight.value.kind == Claim && out != Accepted ==> n.agent.deadline == ZERO_TIME
    requires out == Accepted ==> TermGoesOn(env.Cfg(h), b)
    ensures Follows(env, h, n, CheckTerm(env.Cfg(h), b, n.clock), out)
  {
  }

  /** The acknowledgement comes second. */
  lemma AckFollows(env: Env, log: seq<Record>, h: string, n: Node)
    requires env.Valid() && Tracked(env, log, h, n) && Judged(env, log, n) && n.flight.Landed?
    ensures Judged(env, log, AckedBy(env, h, n))
    ensures AckedBy(env, h, n).flight == NoFlight ==> Follows(env, h, n, AckedBy(env, h, n).agent, Verdict(env.ttl, log, n.flight.at))
  {
    var k := n.flight.at;
    if k in n.agent.ownOutcomes {
      NeverPending(env.ttl, log, k);
      SettleFollows(env, h, log, n, n.agent.(inflight := Some(n.agent.inflight.value.(offset := k))), n.agent.ownOutcomes[k]);
    }
  }

  lemma NeverPending(ttl: Duration, log: seq<Record>, k: int)
    requires 0 <= k < |log|
    ensures Verdict(ttl, log, k) in {Accepted, Rejected}
  {
  }

  /** The read-back comes second. */
  lemma OwnFollows(env: Env, log: seq<Record>, h: string, n: Node, c: AgentState, out: Outcome)
    requires env.Valid() && Tracked(env, log, h, n) && Judged(env, log, n) && n.flight.Landed? && h != ""
    requires out in {Accepted, Rejected} && n.agent.inflight.value.offset == n.flight.at
    requires c.inflight == n.agent.inflight && c.epoch == n.agent.epoch && c.deadline == n.agent.deadline
    requires var s, r := c.view.state, log[n.flight.at];
             out == Accepted ==> s.holder == h && s.epoch == (if r.kind == Claim then n.flight.at else r.epoch) && s.HeldAt(c.view.clock)
    ensures Follows(env, h, n, CheckTerm(env.Cfg(h), Settle(env.Cfg(h), c, n.clock, out), n.clock), out)
  {
    SettleFollows(env, h, log, n, c, out);
    assert Settle(env.Cfg(h), c, n.clock, out).view == c.view;
    hide Settle;
    CheckFollows(env, h, n, Settle(env.Cfg(h), c, n.clock, out), out);
  }

  /** The node's agent and what it reads next. */
  lemma ReadDecides(env: Env, log: seq<Record>, h: string, n: Node)
    requires env.Valid() && Indexed(log) && Tracked(env, log, h, n) && Judged(env, log, n) && n.agent.nextOffset < |log| && h != ""
    ensures var k := n.agent.nextOffset;
            var b := MoveTo(n.agent, n.clock, log[k]);
            var c := b.(view := Views.Apply(b.view, log[k]).view);
            var out := Verdict(env.ttl, log, k);
            Agents.Read(env.Cfg(h), n.agent, n.clock, log[k]).0
            == if log[k].kind == Unknown then b
               else CheckTerm(env.Cfg(h), if log[k].holder == h then OwnRecord(env.Cfg(h), c, n.clock, k, log[k].kind, out) else c, n.clock)
  {
    ReadsTheLog(env, log, h, n);
    hide Views.Apply, Verdict, TruthOf, CheckTerm, OwnRecord;
  }

  lemma OwnRecordFrame(env: Env, log: seq<Record>, h: string, n: Node, c: AgentState, k: int, kind: Kind, out: Outcome)
    requires env.Valid() && c.inflight == n.agent.inflight && c.ownOutcomes == n.agent.ownOutcomes
    requires Tracked(env, log, h, n) && k != -1
    ensures var d := OwnRecord(env.Cfg(h), c, n.clock, k, kind, out);
            d == c || d == c.(ownOutcomes := c.ownOutcomes[k := out])
            || (n.flight.Landed? && n.flight.at == k && c.inflight.value.offset == k && kind == c.inflight.value.kind && d == Settle(env.Cfg(h), c, n.clock, out))
  {
  }

  lemma ChecksKeepJudged(env: Env, log: seq<Record>, h: string, n: Node, a: AgentState)
    requires Judged(env, log, n.(agent := a))
    ensures Judged(env, log, Resolved(n, CheckTerm(env.Cfg(h), a, n.clock)))
  {
  }

  lemma SettlingKeepsJudged(env: Env, log: seq<Record>, h: string, n: Node, c: AgentState, out: Outcome)
    requires Judged(env, log, n.(agent := c)) && c.inflight.Some?
    ensures Judged(env, log, n.(agent := Settle(env.Cfg(h), c, n.clock, out)))
  {
  }

  lemma MovedIsJudged(env: Env, log: seq<Record>, h: string, n: Node)
    requires env.Valid() && Indexed(log) && Tracked(env, log, h, n) && Judged(env, log, n) && n.agent.nextOffset < |log|
    ensures var r := log[n.agent.nextOffset];
            var b := MoveTo(n.agent, n.clock, r);
            var c := if r.kind == Unknown then b else b.(view := Views.Apply(b.view, r).view);
            Judged(env, log, n.(agent := c))
            && c.inflight == n.agent.inflight && c.ownOutcomes == n.agent.ownOutcomes && c.nextOffset == n.agent.nextOffset + 1
  {
    ReadsTheLog(env, log, h, n);
    hide Views.Apply, Verdict, TruthOf;
  }

  lemma JudgedRead(env: Env, log: seq<Record>, h: string, n: Node)
    requires env.Valid() && Indexed(log) && Tracked(env, log, h, n) && Judged(env, log, n) && n.agent.nextOffset < |log| && h != ""
    ensures Judged(env, log, ReadBy(env, h, n, log[n.agent.nextOffset]))
  {
    var k, r, cfg := n.agent.nextOffset, log[n.agent.nextOffset], env.Cfg(h);
    var b := MoveTo(n.agent, n.clock, r);
    var out := Verdict(env.ttl, log, k);
    ReadDecides(env, log, h, n);
    MovedIsJudged(env, log, h, n);
    hide Views.Apply, Verdict, TruthOf, OwnRecord, Agents.Read, MoveTo, CheckTerm, Settle;
    if r.kind == Unknown {
      assert Judged(env, log, Resolved(n, b));
    } else {
      var c := b.(view := Views.Apply(b.view, r).view);
      var d := if r.holder == h then OwnRecord(cfg, c, n.clock, k, r.kind, out) else c;
      OwnRecordFrame(env, log, h, n, c, k, r.kind, out);
      assert Judged(env, log, n.(agent := d)) by {
        if d != c && d != c.(ownOutcomes := c.ownOutcomes[k := out]) {
          SettlingKeepsJudged(env, log, h, n, c, out);
        }
      }
      ChecksKeepJudged(env, log, h, n, d);
      JudgedIgnoresGap(env, log, Resolved(n, CheckTerm(cfg, d, n.clock)), ReadBy(env, h, n, r));
    }
  }

  lemma JudgedIgnoresGap(env: Env, log: seq<Record>, n: Node, n': Node)
    requires Judged(env, log, n) && n'.agent == n.agent && n'.flight == n.flight
    ensures Judged(env, log, n')
  {
  }

  /** Reading one's own acknowledged record settles it. */
  lemma ReadFollows(env: Env, log: seq<Record>, h: string, n: Node)
    requires env.Valid() && Indexed(log) && Tracked(env, log, h, n) && Judged(env, log, n) && n.agent.nextOffset < |log| && h != ""
    requires n.flight.Landed? && ReadBy(env, h, n, log[n.agent.nextOffset]).flight == NoFlight
    ensures Follows(env, h, n, ReadBy(env, h, n, log[n.agent.nextOffset]).agent, Verdict(env.ttl, log, n.flight.at))
  {
    var k, r := n.agent.nextOffset, log[n.agent.nextOffset];
    var b := MoveTo(n.agent, n.clock, r);
    var c := b.(view := Views.Apply(b.view, r).view);
    var out := Verdict(env.ttl, log, k);
    ReadDecides(env, log, h, n);
    ReadsTheLog(env, log, h, n);
    NeverPending(env.ttl, log, k);
    if r.kind != Unknown && out == Accepted && r.kind in {Claim, Renew} && r.holder == h {
      AcceptedShows(n.agent.view, r);
    }
    hide Views.Apply, Verdict, TruthOf, Agents.Read;
    OwnRecordFrame(env, log, h, n, c, k, r.kind, out);
    SettlesOnlyOwn(env, log, h, n, c, r, out);
    OwnFollows(env, log, h, n, c, out);
  }

  lemma SettlesOnlyOwn(env: Env, log: seq<Record>, h: string, n: Node, c: AgentState, r: Record, out: Outcome)
    requires n.agent.inflight.Some? && c.inflight == n.agent.inflight && n.flight.Landed? && Tracked(env, log, h, n)
    requires 0 <= r.offset < |log| && r == log[r.offset]
    requires var d := CheckTerm(env.Cfg(h), if r.holder == h then OwnRecord(env.Cfg(h), c, n.clock, r.offset, r.kind, out) else c, n.clock);
             d.inflight.None?
    ensures r.holder == h && c.inflight.value.offset == n.flight.at == r.offset && r.kind == c.inflight.value.kind
    ensures OwnRecord(env.Cfg(h), c, n.clock, r.offset, r.kind, out) == Settle(env.Cfg(h), c, n.clock, out)
  {
  }

  // ----- over runs -----

  lemma JudgedTick(env: Env, log: seq<Record>, h: string, now: Time, n: Node)
    requires Judged(env, log, n) && Tracked(env, log, h, n) && ZERO_TIME < n.clock
    ensures Judged(env, log, TickedBy(env, h, now, n))
  {
  }

  lemma JudgedElse(env: Env, s: Sys, step: Step)
    requires Enabled(env, s, step) && IsLocal(step) && !step.Reads? && !step.AckArrives? && !step.Ticks?
    requires step.h in s.nodes && Judged(env, s.log, s.nodes[step.h]) && Tracked(env, s.log, step.h, s.nodes[step.h])
    ensures Judged(env, s.log, NodeAfter(env, s.now, s.log, s.nodes[step.h], step))
  {
  }

  lemma JudgedNode(env: Env, s: Sys, step: Step)
    requires env.Valid() && env.wholeLog && Enabled(env, s, step) && IsLocal(step) && Indexed(s.log) && step.h in s.nodes && step.h != ""
    requires Judged(env, s.log, s.nodes[step.h]) && Tracked(env, s.log, step.h, s.nodes[step.h]) && ZERO_TIME < s.nodes[step.h].clock
    ensures Judged(env, s.log, NodeAfter(env, s.now, s.log, s.nodes[step.h], step))
  {
    var h, n := step.h, s.nodes[step.h];
    match step {
      case Reads(_, at) =>
        if at == n.agent.nextOffset {
          JudgedRead(env, s.log, h, n);
        } else {
          assert s.log[at].offset < n.agent.nextOffset;
          JudgedIgnoresGap(env, s.log, n, ReadBy(env, h, n, s.log[at]));
        }
      case AckArrives(_) => AckFollows(env, s.log, h, n);
      case Ticks(_) => JudgedTick(env, s.log, h, s.now, n);
      case _ => JudgedElse(env, s, step);
    }
  }

  lemma JudgedLands(env: Env, s: Sys, h: string, m: Msg, stamp: Time, x: string)
    requires Enabled(env, s, Lands(h, m, stamp)) && x in s.nodes && Judged(env, s.log, s.nodes[x]) && Tracked(env, s.log, x, s.nodes[x])
    ensures Judged(env, After(env, s, Lands(h, m, stamp)).log, After(env, s, Lands(h, m, stamp)).nodes[x])
  {
    JudgedGrows(env, s.log, Stamped(env, m.rec, |s.log|, stamp), s.nodes[x]);
  }

  lemma JudgedStep(env: Env, s: Sys, step: Step, h: string)
    requires env.Valid() && env.wholeLog && Enabled(env, s, step) && Indexed(s.log) && h in s.nodes && h != ""
    requires Judged(env, s.log, s.nodes[h]) && Tracked(env, s.log, h, s.nodes[h]) && ZERO_TIME < s.nodes[h].clock
    ensures h in After(env, s, step).nodes && Judged(env, After(env, s, step).log, After(env, s, step).nodes[h])
  {
    match step {
      case TimePasses(_, ticks) =>
        JudgedIgnoresGap(env, s.log, s.nodes[h], s.nodes[h].(clock := s.nodes[h].clock + ticks[h]));
      case JunkLands(stamp) => JudgedGrows(env, s.log, Junk(|s.log|, stamp), s.nodes[h]);
      case Lands(x, m, stamp) => JudgedLands(env, s, x, m, stamp, h);
      case Joins(_, _, _, _) =>
      case _ =>
        if step.h == h {
          JudgedNode(env, s, step);
        }
    }
  }

  lemma NewcomerIsJudged(env: Env, s: Sys, step: Step, h: string)
    requires env.wholeLog && Enabled(env, s, step) && h !in s.nodes && h in After(env, s, step).nodes
    ensures h != "" && Judged(env, After(env, s, step).log, After(env, s, step).nodes[h])
  {
  }

  lemma {:induction false} IsJudged(env: Env, run: seq<Sys>, steps: seq<Step>, i: int, h: string)
    requires env.Valid() && env.wholeLog && IsRun(env, run, steps) && 0 <= i < |run| && h in run[i].nodes
    ensures h != "" && Judged(env, run[i].log, run[i].nodes[h])
    decreases i
  {
    if i > 0 {
      if h in run[i - 1].nodes {
        IsJudged(env, run, steps, i - 1, h);
        IsIndexed(env, run, steps, i - 1);
        IsTracked(env, run, steps, i - 1, h);
        ClockIsPositive(env, run, steps, i - 1, h);
        JudgedStep(env, run[i - 1], steps[i - 1], h);
      } else {
        NewcomerIsJudged(env, run[i - 1], steps[i - 1], h);
      }
    }
  }

  /** When a record that landed stops being in flight, by its acknowledgement or its read-back, the belief follows
      the whole log's verdict on it, in any run of readers that miss nothing. */
  lemma LogDecides(env: Env, run: seq<Sys>, steps: seq<Step>, i: int, h: string)
    requires env.Valid() && env.wholeLog && IsRun(env, run, steps) && 0 <= i < |steps| && h in run[i].nodes
    requires run[i].nodes[h].flight.Landed? && (steps[i] == AckArrives(h) || (steps[i].Reads? && steps[i].h == h))
    requires h in run[i + 1].nodes && run[i + 1].nodes[h].flight == NoFlight
    ensures var n := run[i].nodes[h];
            n.agent.inflight.Some? && 0 <= n.flight.at < |run[i].log|
            && Follows(env, h, n, run[i + 1].nodes[h].agent, Verdict(env.ttl, run[i].log, n.flight.at))
  {
    IsJudged(env, run, steps, i, h);
    IsIndexed(env, run, steps, i);
    IsTracked(env, run, steps, i, h);
    DecidedBy(env, run[i], steps[i], h);
  }

  lemma SettlesAtPosition(env: Env, h: string, n: Node, r: Record)
    requires n.flight != NoFlight && n.agent.inflight.Some? && ReadBy(env, h, n, r).flight == NoFlight
    ensures n.agent.nextOffset <= r.offset
  {
    hide Views.Apply;
  }

  lemma DecidedBy(env: Env, s: Sys, step: Step, h: string)
    requires env.Valid() && env.wholeLog && Enabled(env, s, step) && Indexed(s.log) && h in s.nodes && h != ""
    requires Judged(env, s.log, s.nodes[h]) && Tracked(env, s.log, h, s.nodes[h])
    requires s.nodes[h].flight.Landed? && (step == AckArrives(h) || (step.Reads? && step.h == h))
    requires h in After(env, s, step).nodes && After(env, s, step).nodes[h].flight == NoFlight
    ensures var n := s.nodes[h]; Follows(env, h, n, After(env, s, step).nodes[h].agent, Verdict(env.ttl, s.log, n.flight.at))
  {
    var n := s.nodes[h];
    if step.AckArrives? {
      AckFollows(env, s.log, h, n);
    } else {
      SettlesAtPosition(env, h, n, s.log[step.at]);
      ReadFollows(env, s.log, h, n);
    }
  }
}
