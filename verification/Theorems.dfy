/**
 The theorems: the invariant holds in every state of every run, and with it the promises of
 docs/protocol.md, for any number of participants and any interleaving.

 `Safe` collects the hypotheses: the margin covers the clocks; and either every reader sees the whole
 log, or brokers agree on the time, releases wait for an empty flight and quiet for a fresh
 fetch. Modules `Margins` and `Counterexamples` show that each of them is needed.
 */
module Theorems {
  import opened Records
  import opened LeaseFold
  import opened Agents
  import opened Systems
  import opened LateReaders
  import opened Invariants
  import opened Landings
  import opened LocalSteps

  ghost predicate Safe(env: Env) {
    env.Valid() && env.MarginCovers() && env.Readable()
  }

  // ----- induction over runs -----

  lemma InitInv(env: Env, s: Sys)
    requires Safe(env) && Init(s)
    ensures Inv(env, s)
  {
  }

  lemma PutKeepsInv(env: Env, s: Sys, h: string, n: Node)
    requires Inv(env, s) && h in s.nodes && NodeInv(env, CommonOf(s), h, n)
    ensures Inv(env, Put(s, h, n))
  {
    hide NodeInv, LogInv;
    assert s.nodes[h := n].Keys == s.nodes.Keys;
    Assemble(env, Put(s, h, n), CommonOf(s), s.nodes[h := n]);
  }

  lemma MoreHolders(env: Env, c: Common, hs: set<string>, more: set<string>)
    requires LogInv(env, c, hs) && hs <= more
    ensures LogInv(env, c, more)
  {
  }

  lemma JoinKeepsInv(env: Env, s: Sys, h: string, start: int, end: int, clock: Time)
    requires Safe(env) && Inv(env, s) && Enabled(env, s, Joins(h, start, end, clock))
    ensures Inv(env, After(env, s, Joins(h, start, end, clock)))
  {
    hide NodeInv, LogInv, Joined;
    var n := Joined(env, h, start, end, clock);
    JoinedStarts(env, CommonOf(s), s.nodes.Keys, h, start, end, clock);
    MoreHolders(env, CommonOf(s), s.nodes.Keys, s.nodes[h := n].Keys);
    Assemble(env, Put(s, h, n), CommonOf(s), s.nodes[h := n]);
  }

  lemma LocalStepKeepsNode(env: Env, s: Sys, n: Node, step: Step)
    requires Safe(env) && Enabled(env, s, step) && IsLocal(step) && n == s.nodes[step.h]
    requires LogInv(env, CommonOf(s), s.nodes.Keys) && NodeInv(env, CommonOf(s), step.h, n)
    ensures NodeInv(env, CommonOf(s), step.h, NodeAfter(env, s.now, s.log, n, step))
  {
    hide NodeInv, LogInv;
    var c, hs, h := CommonOf(s), s.nodes.Keys, step.h;
    match step {
      case IsLost(_, m) => LossKeeps(env, c, h, n, m);
      case Reads(_, at) => ReadKeeps(env, c, hs, h, n, at);
      case FetchFails(_) => FetchFailedKeeps(env, c, h, n);
      case Fetches(_, highWater, asOf) => FetchedKeeps(env, c, hs, h, n, highWater, asOf);
      case AckArrives(_) => AckKeeps(env, c, h, n);
      case GivesUp(_) => GiveUpKeeps(env, c, h, n);
      case Ticks(_) => TickKeeps(env, c, hs, h, n);
      case Releases(_) => ReleaseKeeps(env, c, hs, h, n);
      case Produces(_) => ProduceKeeps(env, c, h, n);
      case Publishes(_) => PublishKeeps(env, c, h, n);
    }
  }

  lemma AfterLocal(env: Env, s: Sys, step: Step)
    requires Enabled(env, s, step) && IsLocal(step)
    ensures step.h in s.nodes
    ensures After(env, s, step) == Put(s, step.h, NodeAfter(env, s.now, s.log, s.nodes[step.h], step))
  {
  }

  lemma LocalStepKeepsInv(env: Env, s: Sys, step: Step)
    requires Safe(env) && Inv(env, s) && Enabled(env, s, step) && IsLocal(step)
    ensures Inv(env, After(env, s, step))
  {
    hide NodeInv, LogInv, NodeAfter, Put;
    AfterLocal(env, s, step);
    LocalStepKeepsNode(env, s, s.nodes[step.h], step);
    PutKeepsInv(env, s, step.h, NodeAfter(env, s.now, s.log, s.nodes[step.h], step));
  }

  lemma StepKeepsInv(env: Env, s: Sys, step: Step)
    requires Safe(env) && Inv(env, s) && Enabled(env, s, step)
    ensures Inv(env, After(env, s, step))
  {
    hide Inv, After, Enabled;
    match step {
      case TimePasses(dt, ticks) => TimeKeepsInv(env, s, dt, ticks);
      case JunkLands(stamp) => JunkKeepsInv(env, s, stamp);
      case Lands(h, m, stamp) => LandsKeepsInv(env, s, h, m, stamp);
      case Joins(h, start, end, clock) => JoinKeepsInv(env, s, h, start, end, clock);
      case _ =>
        LocalStepKeepsInv(env, s, step);
    }
  }

  /** Every state of every run satisfies the invariant. */
  lemma {:induction false} RunsKeepInv(env: Env, run: seq<Sys>, steps: seq<Step>, i: int)
    requires Safe(env) && IsRun(env, run, steps) && 0 <= i < |run|
    ensures Inv(env, run[i])
    decreases i
  {
    if i == 0 {
      InitInv(env, run[0]);
    } else {
      RunsKeepInv(env, run, steps, i - 1);
      StepKeepsInv(env, run[i - 1], steps[i - 1]);
    }
  }

  // ----- belief and truth -----

  /** Belief implies truth. Whoever believes holds the lease in the fold of the whole log,
      including records nobody has read, for every stamp the next record can carry; on perfect
      clocks the term in the log outlives the belief. */
  lemma BeliefImpliesTruth(env: Env, run: seq<Sys>, steps: seq<Step>, i: int, h: string)
    requires Safe(env) && IsRun(env, run, steps) && 0 <= i < |run|
    requires Believes(run[i], h)
    ensures var a, s := run[i].nodes[h].agent, TruthOf(env.ttl, run[i].log).state;
            s.holder == h && s.epoch == a.epoch && run[i].now + env.skew < s.expires
            && (env.Perfect() ==> a.deadline <= s.expires)
  {
    RunsKeepInv(env, run, steps, i);
    var c, n := CommonOf(run[i]), run[i].nodes[h];
    assert NodeInv(env, c, h, n);
    BelieverHolds(env, c, run[i].nodes.Keys, h, n);
    if env.Perfect() {
      PerfectDeadline(env, c, n.clock, c.sends[n.backing]);
    }
  }

  lemma PerfectDeadline(env: Env, c: Common, clock: Time, sent: Sent)
    requires env.Valid() && env.MarginCovers() && env.Perfect() && clock == c.now && Drifts(env, c.now, clock, sent)
    ensures sent.local + (env.ttl - env.margin) <= sent.at + env.wireTtl
  {
    var d := env.rateDen;
    Scale(d, clock - sent.local, c.now - sent.at);
    Scale(d, env.wireTtl, env.ttl - env.margin);
  }

  /** Acting as the holder: by the agent's own belief, or because Status says so. */
  ghost predicate Acts(s: Sys, h: string, epoch: int) {
    (Believes(s, h) && s.nodes[h].agent.epoch == epoch)
    || (ReportsHolding(s, h) && s.nodes[h].published.epoch == epoch)
  }

  lemma ActorHolds(env: Env, run: seq<Sys>, steps: seq<Step>, i: int, h: string, epoch: int)
    requires Safe(env) && IsRun(env, run, steps) && 0 <= i < |run| && Acts(run[i], h, epoch)
    ensures var s := TruthOf(env.ttl, run[i].log).state;
            h != "" && s.holder == h && s.epoch == epoch && run[i].now + env.skew < s.expires
  {
    RunsKeepInv(env, run, steps, i);
    var c, n := CommonOf(run[i]), run[i].nodes[h];
    assert NodeInv(env, c, h, n);
    if Believing(n.agent, n.clock) && n.agent.epoch == epoch {
      BelieverHolds(env, c, run[i].nodes.Keys, h, n);
    } else {
      ReporterHolds(env, c, run[i].nodes.Keys, h, n);
    }
  }

  /** Mutual exclusion, by belief and by Status alike: the margin rule for readers of the whole log under
      any skew and drift, and with late joiners and holes under any drift of the clients. */
  lemma MutualExclusion(env: Env, run: seq<Sys>, steps: seq<Step>, i: int, h: string, e: int, h': string, e': int)
    requires Safe(env) && IsRun(env, run, steps) && 0 <= i < |run|
    requires Acts(run[i], h, e) && Acts(run[i], h', e')
    ensures h == h' && e == e'
  {
    ActorHolds(env, run, steps, i, h, e);
    ActorHolds(env, run, steps, i, h', e');
  }

  // ----- fencing -----

  lemma {:induction false} LogsGrow(env: Env, run: seq<Sys>, steps: seq<Step>, i: int, j: int)
    requires IsRun(env, run, steps) && 0 <= i <= j < |run|
    ensures run[i].log <= run[j].log
    decreases j - i
  {
    if i < j {
      LogsGrow(env, run, steps, i, j - 1);
      assert run[j] == After(env, run[j - 1], steps[j - 1]);
    }
  }

  lemma LogsAreIndexed(env: Env, run: seq<Sys>, steps: seq<Step>, i: int)
    requires Safe(env) && IsRun(env, run, steps) && 0 <= i < |run|
    ensures Indexed(run[i].log)
  {
    RunsKeepInv(env, run, steps, i);
  }

  /** The epoch fences. Across a whole run the epochs of those who act never decrease, and no
      two participants ever act in the same epoch. */
  lemma EpochsFence(env: Env, run: seq<Sys>, steps: seq<Step>, i: int, h: string, e: int, j: int, h': string, e': int)
    requires Safe(env) && IsRun(env, run, steps) && 0 <= i <= j < |run|
    requires Acts(run[i], h, e) && Acts(run[j], h', e')
    ensures e <= e' && (e == e' ==> h == h')
  {
    hide *;
    ActorHolds(env, run, steps, i, h, e);
    ActorHolds(env, run, steps, j, h', e');
    LogsAreIndexed(env, run, steps, j);
    LogsGrow(env, run, steps, i, j);
    EpochsNameHolders(env.ttl, run[i].log, run[j].log);
  }

  // ----- anchors and late readers -----

  /** Anchor honesty: in every log that participants produce who release only with nothing in flight, a claim or renew followed by a
      renew or release of its own term was accepted. */
  lemma AnchorsAreHonest(env: Env, run: seq<Sys>, steps: seq<Step>, i: int)
    requires Safe(env) && env.soloRelease && IsRun(env, run, steps) && 0 <= i < |run|
    ensures Honest(env.ttl, run[i].log)
  {
    RunsKeepInv(env, run, steps, i);
  }

  /** Every reader of a log that a run with exact brokers produced agrees with the whole log, from
      whatever offset and across whatever holes, once it is certain. */
  lemma ReadersOfRunsAgree(env: Env, run: seq<Sys>, steps: seq<Step>, i: int, start: int, picks: seq<int>, at: int)
    requires Safe(env) && env.skew == 0 && env.soloRelease && IsRun(env, run, steps) && 0 <= i < |run|
    requires var log := run[i].log;
             Reading(log, start, picks) && start <= at < |log| && (picks != [] ==> picks[|picks| - 1] < at)
    ensures var log := run[i].log;
            var (after, out) := LateReaders.Read(ReadAll(env.ttl, log, start, picks), log[at]);
            (out != Pending ==> out == Verdict(env.ttl, log, at))
            && (after.view.certain ==> SameFrom(after.view.state, TruthOf(env.ttl, log[..at + 1]).state, log[at].timestamp))
  {
    RunsKeepInv(env, run, steps, i);
    LateReadersAgree(env.ttl, run[i].log, start, picks, at);
  }

  /** What a certain participant shows is what the log says at its read position, for every time from
      the next record on. */
  lemma CertainViewsAgree(env: Env, run: seq<Sys>, steps: seq<Step>, i: int, h: string, now: Time)
    requires Safe(env) && IsRun(env, run, steps) && 0 <= i < |run| && h in run[i].nodes
    requires var a := run[i].nodes[h].agent;
             a.view.certain && a.nextOffset >= 0 && NextStamp(CommonOf(run[i]), a.nextOffset) <= now
    ensures var a := run[i].nodes[h].agent;
            0 <= a.nextOffset <= |run[i].log|
            && var truth := TruthOf(env.ttl, run[i].log[..a.nextOffset]).state;
               (a.view.state.HeldAt(now) <==> truth.HeldAt(now)) && (truth.HeldAt(now) ==> a.view.state == truth)
  {
    RunsKeepInv(env, run, steps, i);
    assert NodeInv(env, CommonOf(run[i]), h, run[i].nodes[h]);
  }

  /** When a tick declares the lease free for lack of records, nothing below the read position
      is live for any record still to be read or to land. */
  lemma QuietAgrees(env: Env, run: seq<Sys>, steps: seq<Step>, i: int, h: string)
    requires Safe(env) && IsRun(env, run, steps) && 0 <= i < |run|
    requires Enabled(env, run[i], Ticks(h)) && QuietFires(env.Cfg(h), run[i].nodes[h].agent, run[i].nodes[h].clock)
    ensures var k := run[i].nodes[h].agent.nextOffset;
            0 <= k <= |run[i].log|
            && var truth := TruthOf(env.ttl, run[i].log[..k]).state;
               !truth.HeldAt(run[i].now)
               && forall j :: k <= j < |run[i].log| ==> !truth.HeldAt(run[i].log[j].timestamp)
  {
    RunsKeepInv(env, run, steps, i);
    var c, n := CommonOf(run[i]), run[i].nodes[h];
    assert NodeInv(env, c, h, n);
    QuietIsSound(env, c, run[i].nodes.Keys, h, n);
    forall j | n.agent.nextOffset <= j < |c.log| ensures NextStamp(c, n.agent.nextOffset) <= c.log[j].timestamp <= c.now {
      SortedPair(c.log, n.agent.nextOffset, j);
    }
  }

  // ----- what a deadline rests on -----

  /** Records given up on never count: a deadline is the send time of one record of the term
      that the whole log accepted, plus TTL minus margin; and a renew in flight is always for
      the current epoch. */
  lemma DeadlineRestsOnAnAcceptedRecord(env: Env, run: seq<Sys>, steps: seq<Step>, i: int, h: string)
    requires Safe(env) && IsRun(env, run, steps) && 0 <= i < |run| && h in run[i].nodes
    ensures var s, n := run[i], run[i].nodes[h];
            (n.agent.deadline != ZERO_TIME ==>
               exists k :: 0 <= k < |s.log| && |s.sends| == |s.log|
                 && s.log[k].Asserts() && s.log[k].Term() == (h, n.agent.epoch)
                 && Verdict(env.ttl, s.log, k) == Accepted
                 && n.agent.deadline == s.sends[k].local + (env.ttl - env.margin))
            && (n.agent.inflight.Some? <==> n.flight != NoFlight)
            && (n.flight != NoFlight && n.flight.m.rec.kind == Renew ==> n.flight.m.rec.epoch == n.agent.epoch)
  {
    RunsKeepInv(env, run, steps, i);
    assert NodeInv(env, CommonOf(run[i]), h, run[i].nodes[h]);
  }

  /** The belief goes first: by the time a release is in the log, neither the agent nor its
      Status claims that term any more. */
  lemma ReleaseComesLast(env: Env, run: seq<Sys>, steps: seq<Step>, i: int, k: int)
    requires Safe(env) && IsRun(env, run, steps) && 0 <= i < |run|
    requires 0 <= k < |run[i].log| && run[i].log[k].kind == Release
    ensures !Acts(run[i], run[i].log[k].holder, run[i].log[k].epoch)
  {
    RunsKeepInv(env, run, steps, i);
    var h := run[i].log[k].holder;
    assert NodeInv(env, CommonOf(run[i]), h, run[i].nodes[h]);
  }
}
