/**
 What a release is for: one that a believer decided and that lands before its deadline would have passed frees the
 lease, and lets the next claim in at once instead of after a TTL.
 */
module Releases {
  import opened Records
  import opened LeaseFold
  import opened Agents
  import opened Systems
  import opened Invariants
  import opened Theorems
  import Histories
  import Landings
  import LocalSteps

  /** The release m of the term (h, e) is under way, and none of that term is in the log yet; or m is gone. */
  ghost predicate UnderWay(s: Sys, h: string, m: Msg, e: int, k: int) {
    && h in s.nodes && m.id < s.nodes[h].nextId
    && (m in s.nodes[h].wire ==>
          && NoRelease(s.log, k + 1, h, e)
          && forall x :: x in s.nodes[h].wire && x.rec.kind == Release && x.rec.epoch == e ==> x == m)
  }

  /** The record the belief rested on, as the log has it at any later time. */
  ghost predicate Rests(env: Env, s: Sys, h: string, deadline: Time, e: int, k: int) {
    h in s.nodes && Backed(env, CommonOf(s), h, s.nodes[h].clock, deadline, e, k)
  }

  lemma RestsOn(env: Env, s: Sys, step: Step, h: string, deadline: Time, e: int, k: int)
    requires env.Valid() && |s.log| == |s.sends| && Enabled(env, s, step) && Rests(env, s, h, deadline, e, k)
    ensures Rests(env, After(env, s, step), h, deadline, e, k)
  {
    var c, n := CommonOf(s), s.nodes[h];
    match step {
      case TimePasses(dt, ticks) =>
        LocalSteps.BackedLater(env, c, h, n.clock, deadline, e, k, dt, ticks[h]);
        hide Backed;
      case JunkLands(stamp) =>
        Landings.BackedGrows(env, c, h, n.clock, deadline, e, k, Junk(|s.log|, stamp), Sent(s.now, ZERO_TIME));
        hide Backed;
      case Lands(_, m, stamp) =>
        Landings.BackedGrows(env, c, h, n.clock, deadline, e, k, Stamped(env, m.rec, |s.log|, stamp), m.sent);
        hide Backed;
      case Joins(_, _, _, _) =>
        hide Backed;
      case _ =>
        hide Backed;
        SameClock(env, s, step);
    }
  }

  lemma SameClock(env: Env, s: Sys, step: Step)
    requires Enabled(env, s, step) && IsLocal(step) && step.h in s.nodes
    ensures NodeAfter(env, s.now, s.log, s.nodes[step.h], step).clock == s.nodes[step.h].clock
  {
  }

  lemma WireOfNode(env: Env, s: Sys, step: Step, m: Msg, e: int)
    requires Enabled(env, s, step) && IsLocal(step) && step.h in s.nodes && m.id < s.nodes[step.h].nextId
    requires m in s.nodes[step.h].wire && s.nodes[step.h].agent.epoch == e ==> s.nodes[step.h].agent.deadline == ZERO_TIME
    requires ZERO_TIME < s.nodes[step.h].clock
    ensures var n, n' := s.nodes[step.h], NodeAfter(env, s.now, s.log, s.nodes[step.h], step);
            n.nextId <= n'.nextId && (m in n'.wire ==> m in n.wire)
            && (m in n.wire ==> forall x :: x in n'.wire && x.rec.kind == Release && x.rec.epoch == e ==> x in n.wire)
  {
    hide Agents.Read;
  }

  lemma UnderWayLands(s: Sys, s': Sys, h: string, m: Msg, e: int, k: int, x: string, m': Msg, r: Record, n': Node)
    requires UnderWay(s, h, m, e, k) && m.rec.kind == Release && m.rec.holder == h && x in s.nodes && m' in s.nodes[x].wire
    requires m'.rec.holder == x && r == m'.rec.(offset := r.offset, timestamp := r.timestamp, ttl := r.ttl)
    requires s'.log == s.log + [r] && s'.nodes == s.nodes[x := n'] && n'.wire == s.nodes[x].wire - {m'} && n'.nextId == s.nodes[x].nextId
    ensures UnderWay(s', h, m, e, k)
  {
  }

  lemma UnderWayLocal(s: Sys, s': Sys, h: string, m: Msg, e: int, k: int, x: string, n': Node)
    requires UnderWay(s, h, m, e, k) && s'.log == s.log && x in s.nodes && s'.nodes == s.nodes[x := n']
    requires x == h ==>
               var n := s.nodes[h];
               n.nextId <= n'.nextId && (m in n'.wire ==> m in n.wire)
               && (m in n.wire ==> forall y :: y in n'.wire && y.rec.kind == Release && y.rec.epoch == e ==> y in n.wire)
    ensures UnderWay(s', h, m, e, k)
  {
  }

  lemma LandingUnderWay(env: Env, s: Sys, h: string, m: Msg, e: int, k: int, x: string, m': Msg, stamp: Time)
    requires Inv(env, s) && Enabled(env, s, Lands(x, m', stamp)) && UnderWay(s, h, m, e, k)
    requires m.rec.kind == Release && m.rec.holder == h && m.rec.epoch == e
    ensures UnderWay(After(env, s, Lands(x, m', stamp)), h, m, e, k)
  {
    assert MsgOk(env, CommonOf(s), x, s.nodes[x], m') by {
      assert NodeInv(env, CommonOf(s), x, s.nodes[x]);
    }
    UnderWayLands(s, After(env, s, Lands(x, m', stamp)), h, m, e, k, x, m', Stamped(env, m'.rec, |s.log|, stamp), LandedBy(s.nodes[x], m', |s.log|));
  }

  lemma LocalUnderWay(env: Env, s: Sys, step: Step, h: string, m: Msg, e: int, k: int)
    requires Inv(env, s) && Enabled(env, s, step) && IsLocal(step) && UnderWay(s, h, m, e, k)
    requires m.rec.kind == Release && m.rec.holder == h && m.rec.epoch == e
    ensures UnderWay(After(env, s, step), h, m, e, k)
  {
    DeadlineIsGone(env, s, h, m);
    AfterLocal(env, s, step);
    assert m.id < s.nodes[h].nextId;
    hide Inv, UnderWay, After, NodeAfter;
    if step.h == h {
      WireOfNode(env, s, step, m, e);
    }
    UnderWayLocal(s, After(env, s, step), h, m, e, k, step.h, NodeAfter(env, s.now, s.log, s.nodes[step.h], step));
  }

  lemma StaysUnderWay(env: Env, s: Sys, step: Step, h: string, m: Msg, e: int, k: int)
    requires Inv(env, s) && Enabled(env, s, step) && UnderWay(s, h, m, e, k)
    requires m.rec.kind == Release && m.rec.holder == h && m.rec.epoch == e
    ensures UnderWay(After(env, s, step), h, m, e, k)
  {
    hide Inv;
    match step {
      case TimePasses(_, _) =>
      case JunkLands(_) =>
      case Lands(x, m', stamp) => LandingUnderWay(env, s, h, m, e, k, x, m', stamp);
      case Joins(_, _, _, _) =>
      case _ => LocalUnderWay(env, s, step, h, m, e, k);
    }
  }

  lemma DeadlineIsGone(env: Env, s: Sys, h: string, m: Msg)
    requires Inv(env, s) && h in s.nodes && m.rec.kind == Release
    ensures ZERO_TIME < s.nodes[h].clock
    ensures m in s.nodes[h].wire && s.nodes[h].agent.epoch == m.rec.epoch ==> s.nodes[h].agent.deadline == ZERO_TIME
  {
    assert NodeInv(env, CommonOf(s), h, s.nodes[h]);
    assert m in s.nodes[h].wire ==> MsgOk(env, CommonOf(s), h, s.nodes[h], m);
  }

  // ----- over runs -----

  /** Where a decided release starts from. */
  lemma Decides(env: Env, s: Sys, h: string)
    requires Inv(env, s) && Enabled(env, s, Releases(h)) && Believes(s, h)
    ensures var n, s' := s.nodes[h], After(env, s, Releases(h));
            h in s'.nodes && s'.nodes[h].outbox.Some?
            && var m := s'.nodes[h].outbox.value;
               m.rec.kind == Release && m.rec.holder == h && m.rec.epoch == n.agent.epoch
               && Rests(env, s, h, n.agent.deadline, n.agent.epoch, n.backing) && Rests(env, s', h, n.agent.deadline, n.agent.epoch, n.backing)
               && UnderWay(s', h, m, n.agent.epoch, n.backing)
  {
    var n := s.nodes[h];
    assert NodeInv(env, CommonOf(s), h, n);
    forall x | x in n.wire && x.rec.kind == Release ensures x.rec.epoch != n.agent.epoch {
      assert MsgOk(env, CommonOf(s), h, n, x);
    }
    OwnTermUnreleased(env, CommonOf(s), h, n, n.backing + 1, n.agent.epoch);
  }

  /** h decided the release m of epoch e when its belief had the given deadline and rested on record k. */
  ghost predicate Decided(env: Env, s: Sys, h: string, m: Msg, deadline: Time, k: int) {
    m.rec.kind == Release && m.rec.holder == h && Rests(env, s, h, deadline, m.rec.epoch, k) && UnderWay(s, h, m, m.rec.epoch, k)
  }

  lemma DecidedStep(env: Env, s: Sys, step: Step, h: string, m: Msg, deadline: Time, k: int)
    requires Inv(env, s) && Enabled(env, s, step) && Decided(env, s, h, m, deadline, k)
    ensures Decided(env, After(env, s, step), h, m, deadline, k)
  {
    assert env.Valid() && |s.log| == |s.sends|;
    hide Inv, UnderWay, Rests, Enabled, After;
    RestsOn(env, s, step, h, deadline, m.rec.epoch, k);
    StaysUnderWay(env, s, step, h, m, m.rec.epoch, k);
  }

  lemma RunStep(env: Env, run: seq<Sys>, steps: seq<Step>, i: int)
    requires IsRun(env, run, steps) && 0 <= i < |steps|
    ensures |run| == |steps| + 1 && Enabled(env, run[i], steps[i]) && run[i + 1] == After(env, run[i], steps[i])
  {
  }

  lemma {:induction false} StaysDecided(env: Env, run: seq<Sys>, steps: seq<Step>, i: int, j: int, h: string, m: Msg, deadline: Time, k: int)
    requires Safe(env) && IsRun(env, run, steps) && 0 <= i <= j < |run| && j <= |steps| && Decided(env, run[i], h, m, deadline, k)
    ensures Decided(env, run[j], h, m, deadline, k)
    decreases j
  {
    hide *;
    if i < j {
      RunStep(env, run, steps, j - 1);
      StaysDecided(env, run, steps, i, j - 1, h, m, deadline, k);
      RunsKeepInv(env, run, steps, j - 1);
      DecidedStep(env, run[j - 1], steps[j - 1], h, m, deadline, k);
    }
  }

  /** The term is still held when the release lands. */
  lemma StillHeld(env: Env, s: Sys, h: string, m: Msg, deadline: Time, e: int, k: int, stamp: Time)
    requires Inv(env, s) && Enabled(env, s, Lands(h, m, stamp)) && Rests(env, s, h, deadline, e, k) && UnderWay(s, h, m, e, k)
    requires m.rec.kind == Release && m.rec.holder == h && m.rec.epoch == e && s.nodes[h].clock < deadline
    ensures Histories.NamesLiveTerm(env.ttl, s.log, Stamped(env, m.rec, |s.log|, stamp))
  {
    assert NodeInv(env, CommonOf(s), h, s.nodes[h]);
    BackedIsTrue(env, CommonOf(s), s.nodes.Keys, h, s.nodes[h].clock, deadline, e, k);
  }

  /** A believer's release that lands before the deadline it gave up counts: the lease is free at once, at all times, until
      somebody claims it, and the next valid claim is accepted whenever it lands. */
  lemma TimelyReleaseFrees(env: Env, run: seq<Sys>, steps: seq<Step>, i: int, j: int, h: string, next: Record)
    requires Safe(env) && IsRun(env, run, steps) && 0 <= i < j < |steps| && steps[i] == Releases(h) && Believes(run[i], h)
    requires h in run[i + 1].nodes && run[i + 1].nodes[h].outbox.Some?
    requires steps[j].Lands? && steps[j].h == h && steps[j].m == run[i + 1].nodes[h].outbox.value
    requires h in run[j].nodes && run[j].nodes[h].clock < run[i].nodes[h].agent.deadline
    requires next.kind == Claim && 0 < next.ttl <= env.ttl && next.offset == |run[j].log| + 1 && next.holder != ""
    ensures var log := run[j + 1].log;
            |log| == |run[j].log| + 1 && Verdict(env.ttl, log, |log| - 1) == Accepted
            && (forall t :: !TruthOf(env.ttl, log).state.HeldAt(t))
            && Verdict(env.ttl, log + [next], |log|) == Accepted && TruthOf(env.ttl, log + [next]).state.holder == next.holder
  {
    var n, m := run[i].nodes[h], run[i + 1].nodes[h].outbox.value;
    RunsKeepInv(env, run, steps, i);
    RunsKeepInv(env, run, steps, j);
    RunStep(env, run, steps, i);
    RunStep(env, run, steps, j);
    Decides(env, run[i], h);
    hide Inv, Enabled, After, IsRun, UnderWay, Rests, Safe;
    StaysDecided(env, run, steps, i + 1, j, h, m, n.agent.deadline, n.backing);
    StillHeld(env, run[j], h, m, n.agent.deadline, n.agent.epoch, n.backing, steps[j].stamp);
    LandingFrees(env, run[j], h, m, steps[j].stamp, next);
  }

  lemma LandingFrees(env: Env, s: Sys, h: string, m: Msg, stamp: Time, next: Record)
    requires Enabled(env, s, Lands(h, m, stamp)) && m.rec.kind == Release
    requires Histories.NamesLiveTerm(env.ttl, s.log, Stamped(env, m.rec, |s.log|, stamp))
    requires next.kind == Claim && 0 < next.ttl <= env.ttl && next.offset == |s.log| + 1 && next.holder != ""
    ensures var log := After(env, s, Lands(h, m, stamp)).log;
            |log| == |s.log| + 1 && Verdict(env.ttl, log, |log| - 1) == Accepted
            && (forall t :: !TruthOf(env.ttl, log).state.HeldAt(t))
            && Verdict(env.ttl, log + [next], |log|) == Accepted && TruthOf(env.ttl, log + [next]).state.holder == next.holder
  {
    var r := Stamped(env, m.rec, |s.log|, stamp);
    Histories.ReleaseFrees(env.ttl, s.log, r, next);
    hide TruthOf, Verdict;
    assert After(env, s, Lands(h, m, stamp)).log == s.log + [r];
    assert s.log + [r, next] == (s.log + [r]) + [next];
  }
}
