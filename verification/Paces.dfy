/**
 When a participant may conclude something from silence, and how long it holds back after a claim
 that came to nothing. These are facts about any run, also of environments the theorems exclude.
 */
module Paces {
  import opened Records
  import opened LeaseFold
  import opened Agents
  import opened Systems
  import Conduct
  import LocalSteps
  import Views

  // ----- silence -----

  /** Something broke the silence at time t or later. */
  predicate Disturbed(a: AgentState, t: Time) {
    !a.connected || t <= a.caughtUpAt || t <= a.lastRecordAt
  }

  /** The steps of h that break the silence: a failed fetch, and a record read for the first time. */
  predicate Disturbs(s: Sys, step: Step, h: string) {
    step == FetchFails(h)
    || (step.Reads? && step.h == h && h in s.nodes && 0 <= step.at < |s.log|
        && s.nodes[h].agent.nextOffset <= s.log[step.at].offset)
  }

  lemma ActsQuietly(cfg: Config, a: AgentState, now: Time, t: Time)
    requires Disturbed(a, t)
    ensures Disturbed(Tick(cfg, a, now).0, t) && Disturbed(GiveUp(cfg, a, now).0, t)
    ensures forall answer :: Disturbed(Acked(cfg, a, now, answer), t)
  {
  }

  lemma SettlesQuietly(cfg: Config, a: AgentState, now: Time, offset: int, kind: Kind, out: Outcome, t: Time)
    requires Disturbed(a, t)
    ensures Disturbed(CheckTerm(cfg, OwnRecord(cfg, a, now, offset, kind, out), now), t) && Disturbed(CheckTerm(cfg, a, now), t)
  {
  }

  lemma ReadDisturbs(cfg: Config, a: AgentState, now: Time, r: Record, t: Time)
    requires t <= now && (Disturbed(a, t) || a.nextOffset <= r.offset)
    ensures Disturbed(Agents.Read(cfg, a, now, r).0, t)
  {
    if a.nextOffset <= r.offset && r.kind != Unknown {
      var b := MoveTo(a, now, r);
      var applied := Views.Apply(b.view, r);
      var c := b.(view := applied.view);
      assert Disturbed(c, t);
      hide Views.Apply, CheckTerm, OwnRecord, MoveTo, Disturbed;
      SettlesQuietly(cfg, c, now, r.offset, r.kind, applied.outcome, t);
    }
  }

  lemma DisturbedStep(env: Env, s: Sys, step: Step, h: string, t: Time)
    requires env.Valid() && Enabled(env, s, step) && h in s.nodes && t <= s.nodes[h].clock
    requires Disturbed(s.nodes[h].agent, t) || Disturbs(s, step, h)
    ensures var s' := After(env, s, step);
            h in s'.nodes && s.nodes[h].clock <= s'.nodes[h].clock && Disturbed(s'.nodes[h].agent, t)
  {
    match step {
      case TimePasses(dt, ticks) =>
        LocalSteps.ClockAdvances(env, dt, ticks[h]);
      case JunkLands(_) =>
      case Lands(_, _, _) =>
      case Joins(_, _, _, _) =>
      case _ =>
        if step.h == h {
          DisturbedNode(env, s, step, t);
        }
    }
  }

  lemma DisturbedNode(env: Env, s: Sys, step: Step, t: Time)
    requires Enabled(env, s, step) && IsLocal(step) && step.h in s.nodes && t <= s.nodes[step.h].clock
    requires Disturbed(s.nodes[step.h].agent, t) || Disturbs(s, step, step.h)
    ensures var n, n' := s.nodes[step.h], NodeAfter(env, s.now, s.log, s.nodes[step.h], step);
            n'.clock == n.clock && Disturbed(n'.agent, t)
  {
    var h, n := step.h, s.nodes[step.h];
    if step.Reads? {
      ReadDisturbs(env.Cfg(h), n.agent, n.clock, s.log[step.at], t);
    } else if !step.FetchFails? {
      ActsQuietly(env.Cfg(h), n.agent, n.clock, t);
    }
  }

  lemma {:induction false} StaysDisturbed(env: Env, run: seq<Sys>, steps: seq<Step>, i: int, j: int, h: string)
    requires env.Valid() && IsRun(env, run, steps) && 0 <= i < j < |run| && h in run[i].nodes && Disturbs(run[i], steps[i], h)
    ensures h in run[j].nodes && run[i].nodes[h].clock <= run[j].nodes[h].clock
    ensures Disturbed(run[j].nodes[h].agent, run[i].nodes[h].clock)
    decreases j
  {
    var t := run[i].nodes[h].clock;
    if j == i + 1 {
      DisturbedStep(env, run[i], steps[i], h, t);
    } else {
      StaysDisturbed(env, run, steps, i, j - 1, h);
      DisturbedStep(env, run[j - 1], steps[j - 1], h, t);
    }
  }

  /** When quiet fires, no fetch failed and no record arrived for a TTL and a margin, as the
      participant's own clock counts them. */
  lemma QuietMeansSilence(env: Env, run: seq<Sys>, steps: seq<Step>, i: int, j: int, h: string)
    requires env.Valid() && IsRun(env, run, steps) && 0 <= i < j < |run| && h in run[i].nodes && h in run[j].nodes
    requires QuietFires(env.Cfg(h), run[j].nodes[h].agent, run[j].nodes[h].clock)
    requires run[j].nodes[h].clock - run[i].nodes[h].clock < env.ttl + env.margin
    ensures !Disturbs(run[i], steps[i], h)
  {
    if Disturbs(run[i], steps[i], h) {
      StaysDisturbed(env, run, steps, i, j, h);
    }
  }

  /** The steps of h that start its silence anew: joining, a record read for the first time, and the first fetch
      after a failed one. */
  predicate Restarts(s: Sys, step: Step, h: string) {
    || (step.Joins? && step.h == h)
    || (h in s.nodes && step.Reads? && step.h == h && 0 <= step.at < |s.log| && s.nodes[h].agent.nextOffset <= s.log[step.at].offset)
    || (h in s.nodes && step.Fetches? && step.h == h && !s.nodes[h].agent.connected)
  }

  /** Silence is never counted from the future. */
  predicate Counted(n: Node) {
    n.agent.caughtUpAt <= n.clock && n.agent.lastRecordAt <= n.clock
  }

  lemma ReadSilence(cfg: Config, a: AgentState, now: Time, r: Record)
    requires a.caughtUpAt <= now && a.lastRecordAt <= now
    ensures var b := Agents.Read(cfg, a, now, r).0;
            b.caughtUpAt <= now && b.lastRecordAt <= now && b.connected == a.connected && b.highWater == a.highWater
            && QuietSince(b) == if a.nextOffset <= r.offset then now else QuietSince(a)
  {
    if a.nextOffset <= r.offset && r.kind != Unknown {
      var b := MoveTo(a, now, r);
      var applied := Views.Apply(b.view, r);
      var c := b.(view := applied.view);
      OwnRecordIsSilent(cfg, c, now, r, applied.outcome);
      var d := if r.holder == cfg.holder then OwnRecord(cfg, c, now, r.offset, r.kind, applied.outcome) else c;
      assert CheckTerm(cfg, d, now).(deadline := d.deadline) == d;
      hide Views.Apply, OwnRecord, CheckTerm;
    }
  }

  lemma OwnRecordIsSilent(cfg: Config, c: AgentState, now: Time, r: Record, out: Outcome)
    ensures var d := OwnRecord(cfg, c, now, r.offset, r.kind, out);
            d.caughtUpAt == c.caughtUpAt && d.lastRecordAt == c.lastRecordAt && d.connected == c.connected && d.highWater == c.highWater
  {
  }

  lemma AnswerIsSilent(cfg: Config, a: AgentState, now: Time, answer: Option<int>)
    ensures var b := Acked(cfg, a, now, answer);
            b.caughtUpAt == a.caughtUpAt && b.lastRecordAt == a.lastRecordAt && b.connected == a.connected && b.highWater == a.highWater
  {
  }

  lemma TickIsSilent(cfg: Config, a: AgentState, now: Time)
    ensures var b := Tick(cfg, a, now).0;
            b.caughtUpAt == a.caughtUpAt && b.lastRecordAt == a.lastRecordAt && b.connected == a.connected && b.highWater == a.highWater
  {
  }

  lemma SilenceOfNode(env: Env, s: Sys, step: Step)
    requires Enabled(env, s, step) && IsLocal(step) && step.h in s.nodes && Counted(s.nodes[step.h])
    ensures var n, n' := s.nodes[step.h], NodeAfter(env, s.now, s.log, s.nodes[step.h], step);
            n'.clock == n.clock && Counted(n')
            && QuietSince(n'.agent) == (if Restarts(s, step, step.h) then n.clock else QuietSince(n.agent))
            && n'.agent.connected == (if step.FetchFails? then false else if step.Fetches? then true else n.agent.connected)
            && n'.agent.highWater == (if step.Fetches? then Max(n.agent.highWater, step.highWater) else n.agent.highWater)
  {
    var n := s.nodes[step.h];
    var cfg := env.Cfg(step.h);
    if step.Reads? {
      ReadSilence(cfg, n.agent, n.clock, s.log[step.at]);
    } else if step.AckArrives? {
      AnswerIsSilent(cfg, n.agent, n.clock, Some(n.flight.at));
    } else if step.GivesUp? {
      AnswerIsSilent(cfg, n.agent, n.clock, None);
    } else if step.Ticks? {
      TickIsSilent(cfg, n.agent, n.clock);
    }
    hide Agents.Read, Acked, Tick;
  }

  lemma SilenceStep(env: Env, s: Sys, step: Step, h: string)
    requires env.Valid() && Enabled(env, s, step) && h in s.nodes && Counted(s.nodes[h])
    ensures var n, s' := s.nodes[h], After(env, s, step);
            h in s'.nodes && n.clock <= s'.nodes[h].clock && Counted(s'.nodes[h])
            && QuietSince(s'.nodes[h].agent) == (if Restarts(s, step, h) then n.clock else QuietSince(n.agent))
            && s'.nodes[h].agent.connected == (if step == FetchFails(h) then false else if step.Fetches? && step.h == h then true else n.agent.connected)
            && s'.nodes[h].agent.highWater == (if step.Fetches? && step.h == h then Max(n.agent.highWater, step.highWater) else n.agent.highWater)
  {
    match step {
      case TimePasses(dt, ticks) =>
        LocalSteps.ClockAdvances(env, dt, ticks[h]);
      case JunkLands(_) =>
      case Lands(_, _, _) =>
      case Joins(_, _, _, _) =>
      case _ =>
        if step.h == h {
          SilenceOfNode(env, s, step);
        }
    }
  }

  lemma NewcomerCounts(env: Env, s: Sys, step: Step, h: string)
    requires Enabled(env, s, step) && h !in s.nodes && h in After(env, s, step).nodes
    ensures step.Joins? && step.h == h && var n := After(env, s, step).nodes[h];
            Counted(n) && QuietSince(n.agent) == n.clock && n.agent.connected && n.agent.highWater == step.end
  {
  }

  lemma {:induction false} IsCounted(env: Env, run: seq<Sys>, steps: seq<Step>, i: int, h: string)
    requires env.Valid() && IsRun(env, run, steps) && 0 <= i < |run| && h in run[i].nodes
    ensures Counted(run[i].nodes[h])
    decreases i
  {
    if i > 0 {
      if h in run[i - 1].nodes {
        IsCounted(env, run, steps, i - 1, h);
        SilenceStep(env, run[i - 1], steps[i - 1], h);
      } else {
        NewcomerCounts(env, run[i - 1], steps[i - 1], h);
      }
    }
  }

  /** What h knows of the silence at step j, if it last started at step i, is the time on its clock then. */
  lemma {:induction false} SilenceIsMeasured(env: Env, run: seq<Sys>, steps: seq<Step>, i: int, j: int, h: string)
    requires env.Valid() && IsRun(env, run, steps) && 0 <= i < j < |run| && h in run[i + 1].nodes && Restarts(run[i], steps[i], h)
    requires forall k :: i < k < j ==> !Restarts(run[k], steps[k], h)
    ensures h in run[j].nodes
    ensures QuietSince(run[j].nodes[h].agent) == run[i + 1].nodes[h].clock
    decreases j
  {
    if j == i + 1 {
      if h in run[i].nodes {
        IsCounted(env, run, steps, i, h);
        SilenceStep(env, run[i], steps[i], h);
        assert run[i + 1].nodes[h].clock == run[i].nodes[h].clock by { RestartKeepsTime(env, run[i], steps[i], h); }
      } else {
        NewcomerCounts(env, run[i], steps[i], h);
      }
    } else {
      SilenceIsMeasured(env, run, steps, i, j - 1, h);
      IsCounted(env, run, steps, j - 1, h);
      SilenceStep(env, run[j - 1], steps[j - 1], h);
    }
  }

  lemma RestartKeepsTime(env: Env, s: Sys, step: Step, h: string)
    requires Enabled(env, s, step) && h in s.nodes && Restarts(s, step, h)
    ensures h in After(env, s, step).nodes && After(env, s, step).nodes[h].clock == s.nodes[h].clock
  {
    hide Agents.Read;
  }

  /** Exactly when quiet fires, in any run: a participant that is uncertain, whose last fetch succeeded and who has read up to
      the end of the log, fires once its silence has lasted a TTL and a margin, counted from when it last started. */
  lemma QuietFiresExactly(env: Env, run: seq<Sys>, steps: seq<Step>, i: int, j: int, h: string)
    requires env.Valid() && IsRun(env, run, steps) && 0 <= i < j < |run| && h in run[i + 1].nodes && Restarts(run[i], steps[i], h)
    requires forall k :: i < k < j ==> !Restarts(run[k], steps[k], h)
    ensures h in run[j].nodes
    ensures var n := run[j].nodes[h];
            QuietFires(env.Cfg(h), n.agent, n.clock) <==>
              n.agent.connected && n.agent.highWater <= n.agent.nextOffset && !n.agent.view.certain
              && run[i + 1].nodes[h].clock + env.ttl + env.margin <= n.clock
  {
    SilenceIsMeasured(env, run, steps, i, j, h);
  }

  /** And then the lease is free for it at once, and it is certain. */
  lemma QuietFrees(cfg: Config, a: AgentState, now: Time)
    requires a.view.ttl == cfg.ttl
    ensures var b := Tick(cfg, a, now).0;
            (QuietFires(cfg, a, now) ==> b.view.certain && forall t :: !b.view.state.HeldAt(t))
            && (!QuietFires(cfg, a, now) ==> b.view == a.view)
  {
  }

  /** A participant counts as connected exactly if its last fetch, if there was one, succeeded. */
  lemma {:induction false} ConnectedIsLastFetch(env: Env, run: seq<Sys>, steps: seq<Step>, i: int, j: int, h: string)
    requires env.Valid() && IsRun(env, run, steps) && 0 <= i < j < |run| && h in run[i].nodes
    requires steps[i] == FetchFails(h) || (steps[i].Fetches? && steps[i].h == h)
    requires forall k :: i < k < j ==> steps[k] != FetchFails(h) && !(steps[k].Fetches? && steps[k].h == h)
    ensures h in run[j].nodes && (run[j].nodes[h].agent.connected <==> steps[i].Fetches?)
    decreases j
  {
    if j == i + 1 {
      IsCounted(env, run, steps, i, h);
      SilenceStep(env, run[i], steps[i], h);
    } else {
      ConnectedIsLastFetch(env, run, steps, i, j - 1, h);
      IsCounted(env, run, steps, j - 1, h);
      SilenceStep(env, run[j - 1], steps[j - 1], h);
    }
  }

  /** The end of the log never moves back for a participant: it is at least every end that was ever reported to it, so
      when quiet fires it has read up to all of them. */
  lemma {:induction false} EndIsKept(env: Env, run: seq<Sys>, steps: seq<Step>, i: int, j: int, h: string)
    requires env.Valid() && IsRun(env, run, steps) && 0 <= i < j < |run| && h in run[i].nodes && steps[i].Fetches? && steps[i].h == h
    ensures h in run[j].nodes && steps[i].highWater <= run[j].nodes[h].agent.highWater
    ensures QuietFires(env.Cfg(h), run[j].nodes[h].agent, run[j].nodes[h].clock) ==> steps[i].highWater <= run[j].nodes[h].agent.nextOffset
    decreases j
  {
    if j == i + 1 {
      IsCounted(env, run, steps, i, h);
      SilenceStep(env, run[i], steps[i], h);
    } else {
      EndIsKept(env, run, steps, i, j - 1, h);
      IsCounted(env, run, steps, j - 1, h);
      SilenceStep(env, run[j - 1], steps[j - 1], h);
    }
  }

  /** This step told h that the log ends at e. */
  predicate Tells(step: Step, h: string, e: int) {
    || (step.Joins? && step.h == h && step.end == e)
    || (step.Fetches? && step.h == h && step.highWater == e)
  }

  /** And no more than that: what h takes for the end of the log was told to it, when it joined or by a fetch. */
  lemma {:induction false} EndWasTold(env: Env, run: seq<Sys>, steps: seq<Step>, j: int, h: string) returns (k: int)
    requires env.Valid() && IsRun(env, run, steps) && 0 <= j < |run| && h in run[j].nodes
    ensures 0 <= k < j && Tells(steps[k], h, run[j].nodes[h].agent.highWater)
    decreases j
  {
    k := j - 1;
    if h in run[k].nodes {
      IsCounted(env, run, steps, k, h);
      SilenceStep(env, run[k], steps[k], h);
      if run[j].nodes[h].agent.highWater == run[k].nodes[h].agent.highWater {
        k := EndWasTold(env, run, steps, k, h);
      }
    } else {
      NewcomerCounts(env, run[k], steps[k], h);
    }
  }

  // ----- the broker's clock -----

  lemma ReadStamps(cfg: Config, a: AgentState, now: Time, r: Record)
    ensures var b := Agents.Read(cfg, a, now, r).0;
            if a.nextOffset <= r.offset then b.lastRecordAt == now && b.lastRecordBroker == r.timestamp
            else b.lastRecordAt == a.lastRecordAt && b.lastRecordBroker == a.lastRecordBroker
  {
    if a.nextOffset <= r.offset && r.kind != Unknown {
      var b := MoveTo(a, now, r);
      var applied := Views.Apply(b.view, r);
      var c := b.(view := applied.view);
      OwnRecordStamps(cfg, c, now, r, applied.outcome);
      var d := if r.holder == cfg.holder then OwnRecord(cfg, c, now, r.offset, r.kind, applied.outcome) else c;
      assert CheckTerm(cfg, d, now).(deadline := d.deadline) == d;
      hide Views.Apply, OwnRecord, CheckTerm;
    }
  }

  lemma OwnRecordStamps(cfg: Config, c: AgentState, now: Time, r: Record, out: Outcome)
    ensures var d := OwnRecord(cfg, c, now, r.offset, r.kind, out);
            d.lastRecordAt == c.lastRecordAt && d.lastRecordBroker == c.lastRecordBroker
  {
  }

  /** h reads the record at offset `at` for the first time. */
  predicate Discovers(s: Sys, step: Step, h: string) {
    step.Reads? && step.h == h && h in s.nodes && 0 <= step.at < |s.log| && s.nodes[h].agent.nextOffset <= s.log[step.at].offset
  }

  lemma StampsOfNode(env: Env, s: Sys, step: Step)
    requires Enabled(env, s, step) && IsLocal(step) && step.h in s.nodes
    ensures var n, n' := s.nodes[step.h], NodeAfter(env, s.now, s.log, s.nodes[step.h], step);
            n'.clock == n.clock
            && if Discovers(s, step, step.h) then n'.agent.lastRecordAt == n.clock && n'.agent.lastRecordBroker == s.log[step.at].timestamp
               else n'.agent.lastRecordAt == n.agent.lastRecordAt && n'.agent.lastRecordBroker == n.agent.lastRecordBroker
  {
    if step.Reads? {
      ReadStamps(env.Cfg(step.h), s.nodes[step.h].agent, s.nodes[step.h].clock, s.log[step.at]);
      hide Agents.Read;
    }
  }

  lemma StampsStep(env: Env, s: Sys, step: Step, h: string)
    requires env.Valid() && Enabled(env, s, step) && h in s.nodes
    ensures var n, s' := s.nodes[h], After(env, s, step);
            h in s'.nodes && n.clock <= s'.nodes[h].clock && (Discovers(s, step, h) ==> s'.nodes[h].clock == n.clock)
            && var b := s'.nodes[h].agent;
               if Discovers(s, step, h) then b.lastRecordAt == n.clock && b.lastRecordBroker == s.log[step.at].timestamp
               else b.lastRecordAt == n.agent.lastRecordAt && b.lastRecordBroker == n.agent.lastRecordBroker
  {
    match step {
      case TimePasses(dt, ticks) =>
        LocalSteps.ClockAdvances(env, dt, ticks[h]);
      case JunkLands(_) =>
      case Lands(_, _, _) =>
      case Joins(_, _, _, _) =>
      case _ =>
        if step.h == h {
          StampsOfNode(env, s, step);
        }
    }
  }

  lemma {:induction false} StampsStay(env: Env, run: seq<Sys>, steps: seq<Step>, i: int, j: int, h: string)
    requires env.Valid() && IsRun(env, run, steps) && 0 <= i < j < |run| && Discovers(run[i], steps[i], h)
    requires forall k :: i < k < j ==> !Discovers(run[k], steps[k], h)
    ensures h in run[j].nodes
    ensures var a := run[j].nodes[h].agent; a.lastRecordAt == run[i].nodes[h].clock && a.lastRecordBroker == run[i].log[steps[i].at].timestamp
    decreases j
  {
    if j == i + 1 {
      StampsStep(env, run[i], steps[i], h);
    } else {
      StampsStay(env, run, steps, i, j - 1, h);
      StampsStep(env, run[j - 1], steps[j - 1], h);
    }
  }

  /** In any run, the estimate of the broker's clock is the stamp of the last record seen and the time on the participant's
      own clock since. */
  lemma EstimateRunsOn(env: Env, run: seq<Sys>, steps: seq<Step>, i: int, j: int, h: string)
    requires env.Valid() && IsRun(env, run, steps) && 0 <= i < j < |run| && Discovers(run[i], steps[i], h)
    requires forall k :: i < k < j ==> !Discovers(run[k], steps[k], h)
    ensures h in run[j].nodes
    ensures var n := run[j].nodes[h];
            BrokerNow(n.agent, n.clock) == run[i].log[steps[i].at].timestamp + (n.clock - run[i].nodes[h].clock)
  {
    StampsStay(env, run, steps, i, j, h);
    Conduct.ClockIsPositive(env, run, steps, i, h);
  }

  // ----- holding back -----

  /** A claim that the client gave up on is followed by a wait of a renew interval, any other record by none. */
  lemma GivenUpWaits(cfg: Config, a: AgentState, now: Time)
    requires a.inflight.Some?
    ensures var b := Acked(cfg, a, now, None);
            b == a.(inflight := None, nextClaimAt := if a.inflight.value.kind == Claim then now + cfg.renewEvery else a.nextClaimAt)
  {
  }

  /** After a rejected claim a participant waits exactly as long as the lease, as far as it can tell, is still
      held, but at least a poll interval and no longer than a TTL. */
  lemma RejectedClaimHoldsBack(cfg: Config, a: AgentState, now: Time)
    requires a.inflight.Some? && a.inflight.value.kind == Claim && 0 <= cfg.renewEvery <= cfg.ttl
    ensures var b := Settle(cfg, a, now, Rejected);
            var left := a.view.state.expires - BrokerNow(a, now);
            now + cfg.renewEvery / 4 <= b.nextClaimAt <= now + cfg.ttl
            && (left <= cfg.ttl ==> now + left <= b.nextClaimAt)
            && b.nextClaimAt <= now + Max(left, cfg.renewEvery / 4)
            && b.epoch == a.epoch && b.deadline == a.deadline
  {
  }

  /** The claim of h in flight comes to nothing at this step: the log rejected it, or the client gave it up. */
  predicate Refused(env: Env, s: Sys, step: Step, h: string) {
    && h in s.nodes && s.nodes[h].agent.inflight.Some? && s.nodes[h].agent.inflight.value.kind == Claim
    && var n := s.nodes[h];
       match step
       case GivesUp(x) => x == h
       case AckArrives(x) => x == h && n.flight.Landed? && n.flight.at in n.agent.ownOutcomes && n.agent.ownOutcomes[n.flight.at] == Rejected
       case Reads(x, at) =>
         x == h && 0 <= at < |s.log|
         && var r := s.log[at];
            r.holder == h && r.kind == Claim && n.agent.nextOffset <= r.offset == n.agent.inflight.value.offset && r.offset != -1
            && Views.Apply(MoveTo(n.agent, n.clock, r).view, r).ok && Views.Apply(MoveTo(n.agent, n.clock, r).view, r).outcome == Rejected
       case _ => false
  }

  /** A claim in flight was sent when it was due. */
  predicate Paced(n: Node) {
    n.agent.inflight.Some? && n.agent.inflight.value.kind == Claim ==> n.agent.nextClaimAt < n.agent.inflight.value.sentAt <= n.clock
  }

  /** The wait only ever moves on, and by a bounded amount. */
  ghost predicate MovesOn(env: Env, h: string, n: Node, n': Node) {
    && n.clock <= n'.clock && n.agent.nextClaimAt <= n'.agent.nextClaimAt
    && (n'.agent.nextClaimAt != n.agent.nextClaimAt ==>
          n.clock + env.Cfg(h).PollEvery() <= n'.agent.nextClaimAt <= n.clock + env.ttl)
  }

  lemma SettlesPaced(env: Env, h: string, n: Node, a: AgentState, out: Outcome)
    requires env.Valid() && a.inflight.Some? && a.nextClaimAt == n.agent.nextClaimAt
    requires a.inflight.value.kind == Claim ==> a.nextClaimAt < a.inflight.value.sentAt <= n.clock
    ensures var b := Settle(env.Cfg(h), a, n.clock, out);
            b.inflight.None? && n.agent.nextClaimAt <= b.nextClaimAt
            && (b.nextClaimAt != n.agent.nextClaimAt ==> n.clock + env.Cfg(h).PollEvery() <= b.nextClaimAt <= n.clock + env.ttl)
            && (a.inflight.value.kind == Claim && out == Rejected ==> n.clock + env.Cfg(h).PollEvery() <= b.nextClaimAt)
  {
  }

  lemma OwnRecordPaced(env: Env, h: string, n: Node, c: AgentState, r: Record, out: Outcome)
    requires env.Valid() && c.nextClaimAt == n.agent.nextClaimAt && Paced(n.(agent := c))
    ensures var b := CheckTerm(env.Cfg(h), OwnRecord(env.Cfg(h), c, n.clock, r.offset, r.kind, out), n.clock);
            Paced(n.(agent := b)) && MovesOn(env, h, n, n.(agent := b))
            && (c.inflight.Some? && c.inflight.value.kind == Claim == r.kind && c.inflight.value.offset == r.offset != -1 && out == Rejected ==>
                  n.clock + env.Cfg(h).PollEvery() <= b.nextClaimAt)
  {
    if c.inflight.Some? {
      SettlesPaced(env, h, n, c, out);
    }
    hide Settle;
  }

  lemma ReadPaced(env: Env, s: Sys, h: string, at: int)
    requires env.Valid() && h in s.nodes && 0 <= at < |s.log| && Paced(s.nodes[h])
    ensures var n, n' := s.nodes[h], ReadBy(env, h, s.nodes[h], s.log[at]);
            Paced(n') && MovesOn(env, h, n, n')
            && (Refused(env, s, Reads(h, at), h) ==> n.clock + env.Cfg(h).PollEvery() <= n'.agent.nextClaimAt)
  {
    var n, r := s.nodes[h], s.log[at];
    if n.agent.nextOffset <= r.offset && r.kind != Unknown {
      var b := MoveTo(n.agent, n.clock, r);
      var applied := Views.Apply(b.view, r);
      var c := b.(view := applied.view);
      hide Views.Apply, OwnRecord;
      OwnRecordPaced(env, h, n, c, r, applied.outcome);
    }
  }

  lemma AckPaced(env: Env, s: Sys, h: string)
    requires env.Valid() && h in s.nodes && s.nodes[h].flight.Landed? && Paced(s.nodes[h])
    ensures var n, n' := s.nodes[h], AckedBy(env, h, s.nodes[h]);
            Paced(n') && MovesOn(env, h, n, n')
            && (Refused(env, s, AckArrives(h), h) ==> n.clock + env.Cfg(h).PollEvery() <= n'.agent.nextClaimAt)
  {
    var n := s.nodes[h];
    if n.agent.inflight.Some? && n.flight.at in n.agent.ownOutcomes {
      var b := n.agent.(inflight := Some(n.agent.inflight.value.(offset := n.flight.at)));
      SettlesPaced(env, h, n, b, n.agent.ownOutcomes[n.flight.at]);
    }
  }

  lemma PacedNode(env: Env, s: Sys, step: Step)
    requires env.Valid() && Enabled(env, s, step) && IsLocal(step) && step.h in s.nodes && Paced(s.nodes[step.h])
    ensures var n, n' := s.nodes[step.h], NodeAfter(env, s.now, s.log, s.nodes[step.h], step);
            Paced(n') && MovesOn(env, step.h, n, n')
            && (Refused(env, s, step, step.h) ==> n.clock + env.Cfg(step.h).PollEvery() <= n'.agent.nextClaimAt)
  {
    if step.Reads? {
      ReadPaced(env, s, step.h, step.at);
    } else if step.AckArrives? {
      AckPaced(env, s, step.h);
    }
  }

  lemma PacedStep(env: Env, s: Sys, step: Step, h: string)
    requires env.Valid() && Enabled(env, s, step) && h in s.nodes && Paced(s.nodes[h])
    ensures var s' := After(env, s, step);
            h in s'.nodes && Paced(s'.nodes[h]) && MovesOn(env, h, s.nodes[h], s'.nodes[h])
            && (Refused(env, s, step, h) ==> s.nodes[h].clock + env.Cfg(h).PollEvery() <= s'.nodes[h].agent.nextClaimAt)
  {
    match step {
      case TimePasses(dt, ticks) =>
        LocalSteps.ClockAdvances(env, dt, ticks[h]);
      case JunkLands(_) =>
      case Lands(_, _, _) =>
      case Joins(_, _, _, _) =>
      case _ =>
        if step.h == h {
          PacedNode(env, s, step);
        }
    }
  }

  lemma NewcomerIsPaced(env: Env, s: Sys, step: Step, h: string)
    requires Enabled(env, s, step) && h !in s.nodes && h in After(env, s, step).nodes
    ensures After(env, s, step).nodes[h].agent.inflight.None? && After(env, s, step).nodes[h].flight == NoFlight
    ensures After(env, s, step).nodes[h].wire == {}
  {
  }

  lemma {:induction false} IsPaced(env: Env, run: seq<Sys>, steps: seq<Step>, i: int, h: string)
    requires env.Valid() && IsRun(env, run, steps) && 0 <= i < |run| && h in run[i].nodes
    ensures Paced(run[i].nodes[h])
    decreases i
  {
    if i > 0 {
      if h in run[i - 1].nodes {
        IsPaced(env, run, steps, i - 1, h);
        PacedStep(env, run[i - 1], steps[i - 1], h);
      } else {
        NewcomerIsPaced(env, run[i - 1], steps[i - 1], h);
      }
    }
  }

  lemma {:induction false} WaitsOn(env: Env, run: seq<Sys>, steps: seq<Step>, i: int, j: int, h: string)
    requires env.Valid() && IsRun(env, run, steps) && 0 <= i <= j < |run| && h in run[i].nodes
    ensures h in run[j].nodes && run[i].nodes[h].agent.nextClaimAt <= run[j].nodes[h].agent.nextClaimAt
    decreases j
  {
    if i < j {
      WaitsOn(env, run, steps, i, j - 1, h);
      IsPaced(env, run, steps, j - 1, h);
      PacedStep(env, run[j - 1], steps[j - 1], h);
    }
  }

  /** After a claim came to nothing, its writer does not claim again for a poll interval, in any run; and its
      wait is over after a TTL. */
  lemma ClaimsHoldBack(env: Env, run: seq<Sys>, steps: seq<Step>, i: int, j: int, h: string)
    requires env.Valid() && IsRun(env, run, steps) && 0 <= i < j < |run| && Refused(env, run[i], steps[i], h)
    ensures h in run[j].nodes && run[i + 1].nodes[h].agent.nextClaimAt <= run[i].nodes[h].clock + env.ttl
    ensures var n := run[j].nodes[h];
            var (_, rec) := Tick(env.Cfg(h), n.agent, n.clock);
            rec.Some? && rec.value.kind == Claim ==> run[i].nodes[h].clock + env.renewEvery / 4 < n.clock
  {
    IsPaced(env, run, steps, i, h);
    PacedStep(env, run[i], steps[i], h);
    WaitsOn(env, run, steps, i + 1, j, h);
    var n := run[j].nodes[h];
    var (_, rec) := Tick(env.Cfg(h), n.agent, n.clock);
    hide Tick, After, Enabled;
    if rec.Some? && rec.value.kind == Claim {
      ClaimIsDue(env.Cfg(h), n.agent, n.clock);
    }
  }

  lemma ClaimIsDue(cfg: Config, a: AgentState, now: Time)
    requires var (_, rec) := Tick(cfg, a, now); rec.Some? && rec.value.kind == Claim
    ensures a.nextClaimAt < now
  {
  }

  // ----- one at a time -----

  /** Of what h sent and the broker does not have yet, everything but the record in flight and releases was
      sent a TTL ago or more. */
  ghost predicate Single(env: Env, n: Node) {
    && (n.agent.inflight.Some? <==> n.flight != NoFlight)
    && (n.flight.Flying? ==> n.agent.inflight.value.offset == -1)
    && (forall m :: m in n.wire && m.rec.kind != Release ==> n.flight == Flying(m) || m.sent.local + env.ttl <= n.clock)
  }

  lemma ReadSingle(env: Env, h: string, n: Node, r: Record)
    requires Single(env, n) && r.offset != -1
    ensures Single(env, ReadBy(env, h, n, r)) && ReadBy(env, h, n, r).wire == n.wire
  {
    if n.agent.nextOffset <= r.offset && r.kind != Unknown {
      var b := MoveTo(n.agent, n.clock, r);
      var applied := Views.Apply(b.view, r);
      hide Views.Apply;
    }
  }

  lemma SingleNode(env: Env, s: Sys, step: Step)
    requires Enabled(env, s, step) && IsLocal(step) && step.h in s.nodes && Single(env, s.nodes[step.h]) && Indexed(s.log)
    ensures Single(env, NodeAfter(env, s.now, s.log, s.nodes[step.h], step))
  {
    if step.Reads? {
      ReadSingle(env, step.h, s.nodes[step.h], s.log[step.at]);
    }
  }

  lemma SingleStep(env: Env, s: Sys, step: Step, h: string)
    requires env.Valid() && Enabled(env, s, step) && h in s.nodes && Single(env, s.nodes[h]) && Indexed(s.log)
    ensures h in After(env, s, step).nodes && Single(env, After(env, s, step).nodes[h])
  {
    match step {
      case TimePasses(dt, ticks) =>
        LocalSteps.ClockAdvances(env, dt, ticks[h]);
      case JunkLands(_) =>
      case Lands(_, _, _) =>
      case Joins(_, _, _, _) =>
      case _ =>
        if step.h == h {
          SingleNode(env, s, step);
        }
    }
  }

  /** One request at a time, but for a release: in any run, a claim or renew that may still land is the one in
      flight, or the delivery timeout has passed since it was sent. */
  lemma {:induction false} OneAtATime(env: Env, run: seq<Sys>, steps: seq<Step>, i: int, h: string)
    requires env.Valid() && IsRun(env, run, steps) && 0 <= i < |run| && h in run[i].nodes
    ensures Single(env, run[i].nodes[h])
    decreases i
  {
    if i > 0 {
      Conduct.IsIndexed(env, run, steps, i - 1);
      if h in run[i - 1].nodes {
        OneAtATime(env, run, steps, i - 1, h);
        SingleStep(env, run[i - 1], steps[i - 1], h);
      } else {
        NewcomerIsPaced(env, run[i - 1], steps[i - 1], h);
      }
    }
  }
}
