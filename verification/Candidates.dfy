/**
 The public face of a participant (lease/candidate.go): the settings it accepts, the status it
 publishes, and the order in which it gives the lease up.
 */
module Candidates {
  import opened Records
  import opened Agents
  import opened Systems
  import opened MutableAgents
  import Theorems
  import opened Margins
  import opened LeaseFold
  import Conduct
  import Views

  // ----- settings -----

  /** Durations are 64-bit, as in the source; `holder` may be left empty. */
  datatype Settings = Settings(
    brokers: seq<string>, topic: string, partition: int,
    holder: string, ttl: Duration, margin: Duration, renewEvery: Duration
  )

  ghost predicate InRange(c: Settings) {
    IsInt64(c.ttl) && IsInt64(c.margin) && IsInt64(c.renewEvery)
  }

  /** `random` is the random holder id drawn when none is configured. */
  function WithDefaults(c: Settings, random: string): Result<Settings> {
    if |c.brokers| == 0 then Err("no brokers")
    else if c.topic == "" then Err("no topic")
    else if c.partition < 0 then Err("negative partition")
    else if c.ttl <= 0 then Err("ttl must be positive")
    else if c.margin < 0 || c.renewEvery < 0 then Err("negative margin or renew interval")
    else
      var margin := if c.margin == 0 then c.ttl / 5 else c.margin;
      var renewEvery := if c.renewEvery == 0 then c.ttl / 3 else c.renewEvery;
      if Wrap64(margin + renewEvery) >= c.ttl then Err("margin + renew interval must stay below ttl")
      else Ok(c.(margin := margin, renewEvery := renewEvery, holder := if c.holder == "" then random else c.holder))
  }

  /** The sum of margin and renew interval leaves room below the TTL exactly when it does not
      overflow: the check is made after the addition. */
  lemma AcceptedSettingsFit(c: Settings, random: string)
    requires InRange(c) && WithDefaults(c, random).Ok?
    ensures var d := WithDefaults(c, random).value;
            0 <= d.margin && 0 <= d.renewEvery && 0 < d.ttl == c.ttl
            && (d.margin + d.renewEvery < d.ttl <==> IsInt64(d.margin + d.renewEvery))
  {
  }

  /** Exactly which settings are accepted, and what becomes of them: an unset margin is a fifth of the TTL, an
      unset renew interval a third, an unset holder drawn at random, and nothing else changes. */
  lemma AcceptsExactly(c: Settings, random: string)
    requires InRange(c) && random != ""
    ensures var margin := if c.margin == 0 then c.ttl / 5 else c.margin;
            var renewEvery := if c.renewEvery == 0 then c.ttl / 3 else c.renewEvery;
            var sane := |c.brokers| > 0 && c.topic != "" && 0 <= c.partition && 0 < c.ttl && 0 <= c.margin && 0 <= c.renewEvery;
            (WithDefaults(c, random).Ok? <==> sane && (margin + renewEvery < c.ttl || 0x8000_0000_0000_0000 <= margin + renewEvery))
            && (WithDefaults(c, random).Ok? ==>
                  WithDefaults(c, random).value.holder != ""
                  && WithDefaults(c, random).value == c.(margin := margin, renewEvery := renewEvery, holder := WithDefaults(c, random).value.holder)
                  && (c.holder != "" ==> WithDefaults(c, random).value.holder == c.holder))
  {
    var margin := if c.margin == 0 then c.ttl / 5 else c.margin;
    var renewEvery := if c.renewEvery == 0 then c.ttl / 3 else c.renewEvery;
    if 0 <= margin && 0 <= renewEvery && 0 < c.ttl && !IsInt64(margin + renewEvery) {
      WrapsOnce(margin + renewEvery);
    }
  }

  lemma WrapsOnce(x: int)
    requires 0x8000_0000_0000_0000 <= x < 0x1_0000_0000_0000_0000
    ensures Wrap64(x) == x - 0x1_0000_0000_0000_0000
  {
  }

  /** Two durations of 200 years add up to less than ten seconds. */
  lemma OverflowSlipsThrough()
    ensures var huge := 0x6000_0000_0000_0000;
            var c := Settings(["b"], "t", 0, "h", 10_000_000_000, huge, huge);
            InRange(c) && WithDefaults(c, "f").Ok?
            && !(WithDefaults(c, "f").value.margin + WithDefaults(c, "f").value.renewEvery < c.ttl)
  {
    assert Wrap64(0xC000_0000_0000_0000) == -0x4000_0000_0000_0000;
  }

  /** Leaving margin and renew interval to their defaults always works, down to the shortest TTL. */
  lemma DefaultsAreAccepted(c: Settings, random: string)
    requires InRange(c) && |c.brokers| > 0 && c.topic != "" && 0 <= c.partition && 0 < c.ttl
    requires c.margin == 0 && c.renewEvery == 0
    ensures WithDefaults(c, random).Ok?
  {
    assert c.ttl / 5 + c.ttl / 3 < c.ttl;
  }

  /** What accepted settings buy: on perfect clocks they meet the hypotheses of the theorems, provided the
      sum did not overflow, the margin covers what the encoding takes off the TTL, releases wait for an
      empty flight and quiet for a fetch no older than the margin. */
  lemma AcceptedSettingsAreSafe(c: Settings, random: string, rate: int, fetchAge: Duration)
    requires InRange(c) && WithDefaults(c, random).Ok? && 0 < rate && 0 <= fetchAge <= WithDefaults(c, random).value.margin
    requires var d := WithDefaults(c, random).value;
             IsInt64(d.margin + d.renewEvery) && d.ttl % MILLISECOND <= d.margin
    ensures var d := WithDefaults(c, random).value;
            var env := Env(d.ttl, Milliseconds(d.ttl) * MILLISECOND, d.margin, d.renewEvery, 0, rate, rate, fetchAge, false, true);
            env.Perfect() && Theorems.Safe(env)
  {
    var d := WithDefaults(c, random).value;
    AcceptedSettingsFit(c, random);
    assert d.ttl - Milliseconds(d.ttl) * MILLISECOND == d.ttl % MILLISECOND;
    var env := Env(d.ttl, Milliseconds(d.ttl) * MILLISECOND, d.margin, d.renewEvery, 0, rate, rate, fetchAge, false, true);
    hide Env.MarginCovers, Env.QuietCovers;
    EqualRates(env);
    FreshEnough(env);
  }

  // ----- status -----

  /** What workloads see; they act on `holding` and nothing else. */
  datatype PublicStatus = PublicStatus(holding: bool, epoch: int, deadline: Time, status: Status)

  /** What one call of setStatus publishes. */
  datatype Snapshot = Snapshot(status: Status, deadline: Time, epoch: int)

  /** Would Status report holding at time t? */
  predicate HoldingAt(p: Snapshot, t: Time) {
    p.deadline != ZERO_TIME && t < p.deadline
  }

  /** p tells the truth about a from `now` on: it reports holding exactly as long as a believes, with its epoch and deadline,
      and shows the lease exactly if the view of a is certain. */
  ghost predicate Shows(p: Snapshot, a: AgentState, now: Time) {
    && (forall t :: now <= t ==> (HoldingAt(p, t) <==> Believing(a, t)))
    && (HoldingAt(p, now) ==> p.deadline == a.deadline) && p.epoch == a.epoch
    && p.status.certain == a.view.certain && p.status.asOf == a.view.clock
    && p.status.lease == (if a.view.certain then a.view.state else State("", 0, ZERO_TIME))
  }

  /** What a publishes is the truth about it. */
  lemma StatusShows(a: AgentState, now: Time)
    requires ZERO_TIME <= now
    ensures var (s, d, e) := StatusOf(a, now); Shows(Snapshot(s, d, e), a, now)
  {
  }

  /** In any run: right after a participant published, Status reports holding exactly if it believes, with its epoch. */
  lemma PublishShows(env: Env, run: seq<Sys>, steps: seq<Step>, i: int, h: string)
    requires env.Valid() && IsRun(env, run, steps) && 0 <= i < |steps| && steps[i] == Publishes(h)
    ensures var s := run[i + 1];
            h in s.nodes && (ReportsHolding(s, h) <==> Believes(s, h)) && s.nodes[h].published.epoch == s.nodes[h].agent.epoch
            && (Believes(s, h) ==> s.nodes[h].published.deadline == s.nodes[h].agent.deadline)
  {
    assert h in run[i].nodes && run[i + 1] == After(env, run[i], steps[i]);
    Conduct.ClockIsPositive(env, run, steps, i, h);
    StatusShows(run[i].nodes[h].agent, run[i].nodes[h].clock);
  }

  class Candidate {
    var status: Status
    var deadline: Time
    var epoch: int
    /** The one-element channel: is a signal waiting? */
    var changed: bool
    /** What a receiver knows that took every signal and read the status after it. */
    ghost var seen: Snapshot

    ghost function Now(): Snapshot
      reads this
    {
      Snapshot(status, deadline, epoch)
    }

    /** A receiver that lags has a signal waiting. */
    ghost predicate Valid()
      reads this
    {
      !changed ==> seen == Now()
    }

    constructor ()
      ensures Valid() && !changed && deadline == ZERO_TIME
    {
      status := Agents.Status(false, Views.EMPTY_STATE, ZERO_TIME);
      deadline, epoch, changed := ZERO_TIME, 0, false;
      seen := Snapshot(Agents.Status(false, Views.EMPTY_STATE, ZERO_TIME), ZERO_TIME, 0);
    }

    /** Holding is evaluated at the time of the call, so a stalled loop never reports a belief
        it has outlived. */
    method Status(now: Time) returns (s: PublicStatus)
      ensures s.holding <==> HoldingAt(Now(), now)
      ensures s.holding ==> s.epoch == epoch && s.deadline == deadline
      ensures !s.holding ==> s.deadline == ZERO_TIME
      ensures s.status == status
    {
      s := PublicStatus(false, 0, ZERO_TIME, status);
      if deadline != ZERO_TIME && now < deadline {
        s := s.(holding := true);
        s := s.(epoch := epoch);
        s := s.(deadline := deadline);
      }
    }

    method SetStatus(s: Status, d: Time, e: int)
      requires Valid()
      modifies this
      ensures Valid() && Now() == Snapshot(s, d, e) && seen == old(seen)
      ensures changed == (old(changed) || old(Now()) != Now())
    {
      var same := status == s && deadline == d && epoch == e;
      status, deadline, epoch := s, d, e;
      if same {
        return;
      }
      if !changed {
        changed := true;
      }
    }

    /** A receiver takes a signal and looks. */
    method Observe(now: Time) returns (s: PublicStatus)
      requires Valid() && changed
      modifies this`changed, this`seen
      ensures Valid() && !changed && seen == Now()
      ensures s.holding <==> deadline != ZERO_TIME && now < deadline
    {
      changed := false;
      s := Status(now);
      seen := Now();
    }
  }

  /** publish: the agent's status, as of `now`. */
  method Publish(a: Agent, c: Candidate, now: Time)
    requires c.Valid()
    modifies c
    ensures c.Valid()
    ensures (c.status, c.deadline, c.epoch) == StatusOf(a.Abs(), now)
    ensures ZERO_TIME <= now ==> Shows(c.Now(), a.Abs(), now)
  {
    var s, d, e := a.Status(now);
    c.SetStatus(s, d, e);
    if ZERO_TIME <= now {
      StatusShows(a.Abs(), now);
    }
  }

  /** shutdown up to the produce call: by the time there is a release to write, neither the agent
      believes nor does the candidate report holding, at any time. */
  method Shutdown(a: Agent, c: Candidate, now: Time) returns (rec: Option<Record>)
    requires c.Valid() && ZERO_TIME <= now
    modifies a, c
    ensures c.Valid()
    ensures (a.Abs(), rec) == GiveUp(a.cfg, old(a.Abs()), now)
    ensures (c.status, c.deadline, c.epoch) == StatusOf(a.Abs(), now)
    ensures rec.Some? <==> Believing(old(a.Abs()), now)
    ensures rec.Some? ==> rec.value.kind == Release && rec.value.epoch == old(a.Abs()).epoch && a.deadline == ZERO_TIME
    ensures c.deadline == ZERO_TIME
  {
    rec := a.Release(now);
    Publish(a, c, now);
  }
}
