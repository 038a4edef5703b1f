/**
 What participants do with what they know: the log never contradicts a belief, so a belief ends
 only by its deadline or by a release; and on perfect clocks nobody who has read the whole log writes
 a claim the log is bound to reject.
 */
module Beliefs {
  import opened Records
  import opened LeaseFold
  import opened Agents
  import opened Systems
  import opened Invariants
  import opened LocalSteps
  import opened Theorems

  // ----- the log never contradicts a belief -----

  /** The belief of n goes on in n', at least as long. */
  ghost predicate GoesOn(n: Node, n': Node) {
    n'.agent.epoch == n.agent.epoch && n.agent.deadline <= n'.agent.deadline
  }

  /** A believer's own renew, once read, was accepted. */
  lemma OwnRenewAccepted(env: Env, c: Common, hs: set<string>, h: string, n: Node)
    requires env.Valid() && env.MarginCovers() && LogInv(env, c, hs) && NodeInv(env, c, h, n)
    requires Believing(n.agent, n.clock) && n.flight.Landed? && n.flight.m.rec.kind == Renew
    ensures 0 <= n.flight.at < |c.log| && Verdict(env.ttl, c.log, n.flight.at) == Accepted
  {
    BelieverHolds(env, c, hs, h, n);
    LiveTermAcceptedAll(env.ttl, c.log, n.flight.at);
  }

  lemma SettleGoesOn(env: Env, c: Common, hs: set<string>, h: string, n: Node, out: Outcome)
    requires env.Valid() && env.MarginCovers() && LogInv(env, c, hs) && NodeInv(env, c, h, n)
    requires Believing(n.agent, n.clock) && n.flight.Landed? && n.flight.at < |c.log| && n.agent.inflight.Some?
    requires out == Pending || (0 <= n.flight.at && out == Verdict(env.ttl, c.log, n.flight.at))
    ensures GoesOn(n, Resolved(n, Settle(env.Cfg(h), n.agent, n.clock, out)))
  {
    assert n.flight.m.rec.kind == Renew;
    OwnRenewAccepted(env, c, hs, h, n);
  }

  /** At the read position the view shows a believer's term alive. */
  lemma BelieverSeesItsTerm(env: Env, c: Common, hs: set<string>, h: string, n: Node)
    requires env.Valid() && env.MarginCovers() && LogInv(env, c, hs) && NodeInv(env, c, h, n)
    requires Believing(n.agent, n.clock) && n.agent.view.certain
    ensures TermGoesOn(env.Cfg(h), n.agent)
  {
    var k := n.agent.nextOffset;
    BelieverHolds(env, c, hs, h, n);
    if env.wholeLog {
      LiveTermWasLive(env.ttl, c.log, k);
    } else {
      LiveTermWasLiveNext(env.ttl, c.log, k, c.now);
    }
  }

  lemma CheckGoesOn(env: Env, c: Common, hs: set<string>, h: string, n: Node)
    requires env.Valid() && env.MarginCovers() && LogInv(env, c, hs) && NodeInv(env, c, h, n)
    ensures CheckTerm(env.Cfg(h), n.agent, n.clock) == n.agent
  {
    if Believing(n.agent, n.clock) && n.agent.view.certain {
      BelieverSeesItsTerm(env, c, hs, h, n);
    }
  }

  lemma AckGoesOn(env: Env, c: Common, hs: set<string>, h: string, n: Node)
    requires env.Valid() && env.MarginCovers() && LogInv(env, c, hs) && NodeInv(env, c, h, n) && n.outbox.None?
    requires Believing(n.agent, n.clock) && n.flight.Landed?
    ensures GoesOn(n, AckedBy(env, h, n))
  {
    AckDecomposes(env, c, h, n);
    InformedKeeps(env, c, h, n);
    if n.flight.at in n.agent.ownOutcomes {
      SettleGoesOn(env, c, hs, h, Informed(n), n.agent.ownOutcomes[n.flight.at]);
    }
  }

  /** A read is: move the view, settle what is one's own, check that the term goes on. */
  lemma ReadEndsInCheck(env: Env, h: string, n: Node, r: Record)
    requires n.agent.nextOffset <= r.offset && r.kind != Unknown && Heard(n, r).ok
    ensures var w := OwnRead(env, h, Viewed(n, r), r, Heard(n, r).outcome);
            w.clock == n.clock && ReadBy(env, h, n, r).agent == CheckTerm(env.Cfg(h), w.agent, w.clock)
    ensures Viewed(n, r).agent.epoch == n.agent.epoch && Viewed(n, r).agent.deadline == n.agent.deadline
    ensures Viewed(n, r).clock == n.clock && Viewed(n, r).outbox == n.outbox
    ensures Viewed(n, r).agent.nextOffset == r.offset + 1
  {
  }

  lemma OwnReadGoesOn(env: Env, c: Common, hs: set<string>, h: string, n: Node, at: int, out: Outcome)
    requires env.Valid() && env.MarginCovers() && LogInv(env, c, hs) && NodeInv(env, c, h, n)
    requires Believing(n.agent, n.clock) && 0 <= at < |c.log| && out in {Pending, Verdict(env.ttl, c.log, at)}
    ensures GoesOn(n, OwnRead(env, h, n, c.log[at], out))
  {
    assert c.log[at].offset == at;
    OwnReadCases(env, c, h, n, c.log[at], out);
    if n.flight.Landed? && n.agent.inflight.value.offset == n.flight.at == at {
      SettleGoesOn(env, c, hs, h, n, out);
    }
  }

  lemma ReadGoesOn(env: Env, c: Common, hs: set<string>, h: string, n: Node, at: int)
    requires env.Valid() && env.MarginCovers() && LogInv(env, c, hs) && NodeInv(env, c, h, n) && n.outbox.None?
    requires 0 <= at < |c.log| && (env.wholeLog ==> at <= n.agent.nextOffset) && Believing(n.agent, n.clock)
    ensures GoesOn(n, ReadBy(env, h, n, c.log[at]))
  {
    var r := c.log[at];
    ReadDecomposes(env, c, h, n, r);
    if at >= n.agent.nextOffset {
      ViewedKeeps(env, c, hs, h, n, at);
      if r.kind != Unknown {
        ReadEndsInCheck(env, h, n, r);
        hide NodeInv, Viewed, OwnRead, Heard, ReadBy, CheckTerm;
        var v, out := Viewed(n, r), Heard(n, r).outcome;
        OwnReadKeeps(env, c, h, v, at, out);
        OwnReadGoesOn(env, c, hs, h, v, at, out);
        CheckGoesOn(env, c, hs, h, OwnRead(env, h, v, r, out));
      }
    }
  }

  /** The log never contradicts a belief: no record read, no acknowledgement and no tick ends the
      belief of a participant before its deadline, or moves that deadline back. Only its own
      release does. */
  lemma BeliefsEndOnTime(env: Env, run: seq<Sys>, steps: seq<Step>, i: int, h: string)
    requires Safe(env) && IsRun(env, run, steps) && 0 <= i < |steps|
    requires Believes(run[i], h) && steps[i] != Releases(h)
    ensures h in run[i + 1].nodes && GoesOn(run[i].nodes[h], run[i + 1].nodes[h])
  {
    RunsKeepInv(env, run, steps, i);
    StepGoesOn(env, run[i], steps[i], h);
  }

  lemma StepGoesOn(env: Env, s: Sys, step: Step, h: string)
    requires Safe(env) && Inv(env, s) && Enabled(env, s, step) && Believes(s, h) && step != Releases(h)
    ensures h in After(env, s, step).nodes && GoesOn(s.nodes[h], After(env, s, step).nodes[h])
  {
    if IsLocal(step) && step.h == h {
      LocalGoesOn(env, s, step);
    }
  }

  /** Every local step but reading, an acknowledgement and a release leaves a running belief alone. */
  lemma OtherStepsGoOn(env: Env, c: Common, h: string, n: Node, step: Step)
    requires FlightOk(env, c, h, n) && Believing(n.agent, n.clock)
    requires IsLocal(step) && step.h == h && !step.Releases? && !step.Reads? && !step.AckArrives?
    ensures GoesOn(n, NodeAfter(env, c.now, c.log, n, step))
  {
  }

  lemma LocalGoesOn(env: Env, s: Sys, step: Step)
    requires Safe(env) && Inv(env, s) && Enabled(env, s, step) && IsLocal(step) && !step.Releases?
    requires Believes(s, step.h)
    ensures step.h in After(env, s, step).nodes && GoesOn(s.nodes[step.h], After(env, s, step).nodes[step.h])
  {
    var c, hs, h := CommonOf(s), s.nodes.Keys, step.h;
    var n := s.nodes[h];
    AfterLocal(env, s, step);
    assert NodeInv(env, c, h, n) && FlightOk(env, c, h, n);
    hide NodeInv, LogInv, FlightOk, Env.MarginCovers, After, ReadBy, AckedBy, TickedBy, ReleasedBy, GivenUpBy, PublishedBy;
    match step {
      case Reads(_, at) => ReadGoesOn(env, c, hs, h, n, at);
      case AckArrives(_) => AckGoesOn(env, c, hs, h, n);
      case _ => OtherStepsGoOn(env, c, h, n, step);
    }
  }

  // ----- claims are never hopeless -----

  /** The estimate of the broker's clock never runs ahead of it. */
  lemma EstimateIsBehind(env: Env, c: Common, hs: set<string>, h: string, n: Node)
    requires env.Perfect() && LogInv(env, c, hs) && NodeInv(env, c, h, n) && n.agent.nextOffset == |c.log|
    ensures BrokerNow(n.agent, n.clock) <= c.now
  {
    assert c.log[..|c.log|] == c.log;
  }

  /** A claim of a participant that has read the whole log is accepted if it is the next
      record to land, whenever that is. */
  lemma ClaimsAreNotHopeless(env: Env, run: seq<Sys>, steps: seq<Step>, i: int, h: string, landing: Time)
    requires Safe(env) && env.Perfect() && 0 < env.wireTtl && IsRun(env, run, steps) && 0 <= i < |run|
    requires Enabled(env, run[i], Ticks(h)) && run[i].nodes[h].agent.nextOffset == |run[i].log|
    requires var (_, rec) := Tick(env.Cfg(h), run[i].nodes[h].agent, run[i].nodes[h].clock); rec.Some? && rec.value.kind == Claim
    requires run[i].now <= landing
    ensures var (_, rec) := Tick(env.Cfg(h), run[i].nodes[h].agent, run[i].nodes[h].clock);
            var log := run[i].log;
            Judge(env.ttl, TruthOf(env.ttl, log), Stamped(env, rec.value, |log|, landing)).1 == Accepted
  {
    RunsKeepInv(env, run, steps, i);
    var c, hs, n := CommonOf(run[i]), run[i].nodes.Keys, run[i].nodes[h];
    assert NodeInv(env, c, h, n) && LogInv(env, c, hs);
    var l := Listened(env, h, Expired(n));
    ListenedInv(env, c, hs, h, n);
    ClaimMeansFree(env, h, n);
    EstimateIsBehind(env, c, hs, h, l);
    FreeInTruth(env, c, hs, h, l);
  }

  lemma ListenedInv(env: Env, c: Common, hs: set<string>, h: string, n: Node)
    requires env.Valid() && env.Readable() && LogInv(env, c, hs) && NodeInv(env, c, h, n)
    requires QuietFires(env.Cfg(h), n.agent, n.clock) ==> c.now - env.fetchAge <= n.fetchedAt
    ensures NodeInv(env, c, h, Listened(env, h, Expired(n)))
    ensures Listened(env, h, Expired(n)).agent.nextOffset == n.agent.nextOffset
    ensures Listened(env, h, Expired(n)).clock == n.clock
  {
    TickDecomposes(env, h, c.now, n);
    TickFrame(env, h, n);
    if Expired(n) != n {
      DropKeeps(env, c, h, n, n.backing);
    }
    ListenKeeps(env, c, hs, h, Expired(n));
  }

  lemma ClaimMeansFree(env: Env, h: string, n: Node)
    requires var (_, rec) := Tick(env.Cfg(h), n.agent, n.clock); rec.Some? && rec.value.kind == Claim
    ensures var l := Listened(env, h, Expired(n));
            l.agent.view.certain && !l.agent.view.state.HeldAt(BrokerNow(l.agent, l.clock))
  {
  }

  lemma FreeInTruth(env: Env, c: Common, hs: set<string>, h: string, n: Node)
    requires env.Perfect() && LogInv(env, c, hs) && NodeInv(env, c, h, n)
    requires n.agent.view.certain && n.agent.nextOffset == |c.log|
    requires !n.agent.view.state.HeldAt(BrokerNow(n.agent, n.clock)) && BrokerNow(n.agent, n.clock) <= c.now
    ensures !TruthOf(env.ttl, c.log).state.HeldAt(c.now) && TruthOf(env.ttl, c.log).clock <= c.now
  {
    assert c.log[..|c.log|] == c.log;
  }
}
