/**
 Any number of participants sharing one log: the environment that lease/sim_test.go samples by
 seed, as a state machine over its steps. Messages may land late, never, or after their writer
 gave them up; acknowledgements race with read-back; readers lag, join late and meet holes;
 processes freeze and crash (they simply take no more steps).

 Each node's own code is the functions of module `Agents`; what is added here is the broker,
 the wire, the clocks and the published status of lease/candidate.go.
 */
module Systems {
  import opened Records
  import opened Agents

  /** The settings all participants share, and the limits of the environment.

      - `wireTtl` is `ttl` as it survives encoding, in whole milliseconds;
      - `skew` bounds a partition leader's clock: a record that lands at t is stamped in [t - skew, t + skew];
      - a client's clock runs at a rate in [n/d, (2d - n)/d] with n = `rateNum`, d = `rateDen`;
      - `fetchAge` is how old, in real time, the last successful fetch may be when quiet is declared;
      - `wholeLog`: every reader starts at offset 0 and meets no holes;
      - `soloRelease`: a release is decided only with nothing in flight (rule 2 of docs/protocol.md). */
  datatype Env = Env(
    ttl: Duration, wireTtl: Duration, margin: Duration, renewEvery: Duration,
    skew: Duration, rateNum: int, rateDen: int,
    fetchAge: Duration, wholeLog: bool, soloRelease: bool
  ) {
    predicate Valid() {
      && 0 < ttl && 0 <= wireTtl <= ttl
      && 0 <= margin && 0 <= renewEvery && margin + renewEvery < ttl
      && 0 <= skew && 0 < rateNum <= rateDen && 0 <= fetchAge
    }

    predicate Perfect() {
      skew == 0 && rateNum == rateDen
    }

    /** What the margin must leave room for: two brokers' skew, and what the encoding took off the TTL. */
    function Slack(): Duration {
      2 * skew + (ttl - wireTtl)
    }

    /** The slowest clock sees ttl - margin go by before the term in the log can run out. This is
        a little less than margin >= 2 * skew + ttl * drift asks for; module `Margins` compares them. */
    predicate MarginCovers() {
      rateDen * (ttl - margin) <= rateNum * (ttl - Slack())
    }

    /** The fastest clock sees ttl + margin of silence go by only after any term that the last fetch
        could have missed has run out. */
    predicate QuietCovers() {
      (2 * rateDen - rateNum) * (wireTtl + fetchAge) <= rateDen * (ttl + margin)
    }

    /** What readers of a tail need: brokers that agree on the time, honest anchors, and sound silence. */
    predicate ServesTails() {
      skew == 0 && soloRelease && QuietCovers()
    }

    /** Every reader there can be is well served. */
    predicate Readable() {
      wholeLog || ServesTails()
    }

    function Cfg(h: string): Config {
      Config(h, ttl, margin, renewEvery)
    }
  }

  /** When a record was sent: in real time, and on the sender's clock. */
  datatype Sent = Sent(at: Time, local: Time)

  /** A produce request that may still land. */
  datatype Msg = Msg(id: nat, rec: Record, sent: Sent)

  /** What became of the record the agent counts as in flight. */
  datatype Flight = NoFlight | Flying(m: Msg) | Landed(m: Msg, at: int)

  /** What Candidate.Status answers from: the last published belief, and the log offset of
      the record behind it. */
  datatype Published = Published(deadline: Time, epoch: int, backing: int)

  /** - `gap`: where the reader's current gap-free stretch of the log began;
      - `wire`: this node's requests that may still land; `outbox` marks a release that is
        decided but not yet handed to the client, and `outPublished` that Status says so;
      - `backing`: the log offset of the record the belief rests on;
      - `fetchedAt`: how recent, in broker time, the last successful fetch was. */
  datatype Node = Node(
    agent: AgentState, clock: Time, gap: int,
    wire: set<Msg>, nextId: nat, flight: Flight, backing: int,
    published: Published, outbox: Option<Msg>, outPublished: bool,
    fetchedAt: Time
  )

  /** `sends[i]` is when the record at offset i was sent. */
  datatype Sys = Sys(now: Time, log: seq<Record>, sends: seq<Sent>, nodes: map<string, Node>)

  datatype Step =
    | TimePasses(dt: int, ticks: map<string, int>)
    | JunkLands(stamp: Time)
    | Lands(h: string, m: Msg, stamp: Time)
    | IsLost(h: string, m: Msg)
    | Joins(h: string, start: int, end: int, clock: Time)
    | Reads(h: string, at: int)
    | FetchFails(h: string)
    | Fetches(h: string, highWater: int, asOf: Time)
    | AckArrives(h: string)
    | GivesUp(h: string)
    | Ticks(h: string)
    | Releases(h: string)
    | Produces(h: string)
    | Publishes(h: string)

  predicate Init(s: Sys) {
    ZERO_TIME < s.now && s.log == [] && s.sends == [] && s.nodes == map[]
  }

  /** The node's loop is free to run: it is not in the middle of handing over a release. */
  predicate Loops(s: Sys, h: string) {
    h in s.nodes && s.nodes[h].outbox.None?
  }

  predicate StampOk(env: Env, s: Sys, stamp: Time) {
    s.now - env.skew <= stamp <= s.now + env.skew
  }

  /** A client clock may advance by `tick` while dt of real time passes. */
  predicate Ticking(env: Env, dt: int, tick: int) {
    0 <= dt && env.rateNum * dt <= env.rateDen * tick <= (2 * env.rateDen - env.rateNum) * dt
  }

  ghost predicate Enabled(env: Env, s: Sys, step: Step) {
    match step
    case TimePasses(dt, ticks) =>
      0 <= dt && ticks.Keys == s.nodes.Keys
      && forall h :: h in s.nodes ==> Ticking(env, dt, ticks[h])
    case JunkLands(stamp) => StampOk(env, s, stamp)
    case Lands(h, m, stamp) =>
      h in s.nodes && m in s.nodes[h].wire && s.nodes[h].outbox != Some(m) && StampOk(env, s, stamp)
    case IsLost(h, m) => h in s.nodes && m in s.nodes[h].wire && s.nodes[h].outbox != Some(m)
    case Joins(h, start, end, clock) =>
      // Holders are unique, also across restarts.
      h != "" && h !in s.nodes && 0 <= start <= end <= |s.log| && ZERO_TIME < clock
      && (env.Perfect() ==> clock == s.now) && (env.wholeLog ==> start == 0)
    case Reads(h, at) =>
      Loops(s, h) && 0 <= at < |s.log|
      && (env.wholeLog ==> at <= s.nodes[h].agent.nextOffset)
    case FetchFails(h) => Loops(s, h)
    case Fetches(h, highWater, asOf) =>
      // At broker time asOf the log was no longer than highWater.
      Loops(s, h) && 0 <= highWater <= |s.log| && asOf <= s.now
      && forall i :: highWater <= i < |s.log| ==> asOf <= s.log[i].timestamp
    case AckArrives(h) =>
      Loops(s, h) && s.nodes[h].flight.Landed?
    case GivesUp(h) =>
      // An error answers a record that never lands, or comes a TTL after the send.
      Loops(s, h) && s.nodes[h].flight != NoFlight
      && (var n := s.nodes[h];
          n.flight.m.sent.local + env.ttl <= n.clock || (n.flight.Flying? && n.flight.m !in n.wire))
    case Ticks(h) =>
      Loops(s, h)
      && (QuietFires(env.Cfg(h), s.nodes[h].agent, s.nodes[h].clock) ==> s.now - env.fetchAge <= s.nodes[h].fetchedAt)
    case Releases(h) =>
      Loops(s, h) && (env.soloRelease ==> s.nodes[h].agent.inflight.None?)
    case Produces(h) => h in s.nodes && s.nodes[h].outbox.Some? && s.nodes[h].outPublished
    case Publishes(h) => h in s.nodes
  }

  /** The broker's copy of a record: offset and timestamp assigned, TTL as encoded. */
  function Stamped(env: Env, r: Record, offset: int, stamp: Time): Record {
    r.(offset := offset, timestamp := stamp, ttl := env.wireTtl)
  }

  function Junk(offset: int, stamp: Time): Record {
    Record(offset, stamp, Unknown, "", 0, 0)
  }

  /** The node after its agent settled, or not, the record in flight: a new deadline rests on
      that record. */
  function Resolved(n: Node, a: AgentState): Node {
    n.(agent := a,
       flight := if a.inflight.None? then NoFlight else n.flight,
       backing := if a.deadline != ZERO_TIME && a.deadline != n.agent.deadline && n.flight.Landed? then n.flight.at else n.backing)
  }

  function ReadBy(env: Env, h: string, n: Node, r: Record): Node {
    Resolved(n, Read(env.Cfg(h), n.agent, n.clock, r).0).(
      gap := if r.offset > n.agent.nextOffset then r.offset else n.gap)
  }

  function AckedBy(env: Env, h: string, n: Node): Node
    requires n.flight.Landed?
  {
    Resolved(n, Acked(env.Cfg(h), n.agent, n.clock, Some(n.flight.at)))
  }

  function GivenUpBy(env: Env, h: string, n: Node): Node {
    n.(agent := Acked(env.Cfg(h), n.agent, n.clock, None), flight := NoFlight)
  }

  function TickedBy(env: Env, h: string, now: Time, n: Node): Node {
    var (a, rec) := Tick(env.Cfg(h), n.agent, n.clock);
    if rec.None? then n.(agent := a)
    else
      var m := Msg(n.nextId, rec.value, Sent(now, n.clock));
      n.(agent := a, wire := n.wire + {m}, nextId := n.nextId + 1, flight := Flying(m))
  }

  function ReleasedBy(env: Env, h: string, now: Time, n: Node): Node {
    var (a, rec) := GiveUp(env.Cfg(h), n.agent, n.clock);
    if rec.None? then n.(agent := a)
    else
      var m := Msg(n.nextId, rec.value, Sent(now, n.clock));
      n.(agent := a, wire := n.wire + {m}, nextId := n.nextId + 1, outbox := Some(m), outPublished := false)
  }

  function PublishedBy(n: Node): Node {
    var (_, deadline, epoch) := StatusOf(n.agent, n.clock);
    n.(published := Published(deadline, epoch, n.backing), outPublished := true)
  }

  function LandedBy(n: Node, m: Msg, offset: int): Node {
    n.(wire := n.wire - {m}, flight := if n.flight == Flying(m) then Landed(m, offset) else n.flight)
  }

  function Joined(env: Env, h: string, start: int, end: int, clock: Time): Node {
    Node(New(env.Cfg(h), start, end, clock), clock, start, {}, 0, NoFlight, -1,
         Published(ZERO_TIME, -1, -1), None, false, ZERO_TIME)
  }

  function Put(s: Sys, h: string, n: Node): Sys {
    s.(nodes := s.nodes[h := n])
  }

  /** Steps that touch one node and nothing else. */
  predicate IsLocal(step: Step) {
    !step.TimePasses? && !step.JunkLands? && !step.Lands? && !step.Joins?
  }

  /** What a local step makes of its node. */
  function NodeAfter(env: Env, now: Time, log: seq<Record>, n: Node, step: Step): Node
    requires IsLocal(step)
    requires step.Reads? ==> 0 <= step.at < |log|
    requires step.AckArrives? ==> n.flight.Landed?
  {
    match step
    case IsLost(_, m) => n.(wire := n.wire - {m})
    case Reads(h, at) => ReadBy(env, h, n, log[at])
    case FetchFails(_) => n.(agent := FetchFailed(n.agent))
    case Fetches(_, highWater, asOf) => n.(agent := Fetched(n.agent, n.clock, highWater), fetchedAt := asOf)
    case AckArrives(h) => AckedBy(env, h, n)
    case GivesUp(h) => GivenUpBy(env, h, n)
    case Ticks(h) => TickedBy(env, h, now, n)
    case Releases(h) => ReleasedBy(env, h, now, n)
    case Produces(_) => n.(outbox := None)
    case Publishes(_) => PublishedBy(n)
  }

  ghost function After(env: Env, s: Sys, step: Step): Sys
    requires Enabled(env, s, step)
  {
    match step
    case TimePasses(dt, ticks) =>
      s.(now := s.now + dt, nodes := map h | h in s.nodes :: s.nodes[h].(clock := s.nodes[h].clock + ticks[h]))
    case JunkLands(stamp) =>
      s.(log := s.log + [Junk(|s.log|, stamp)], sends := s.sends + [Sent(s.now, ZERO_TIME)])
    case Lands(h, m, stamp) =>
      Put(s, h, LandedBy(s.nodes[h], m, |s.log|)).(
        log := s.log + [Stamped(env, m.rec, |s.log|, stamp)], sends := s.sends + [m.sent])
    case Joins(h, start, end, clock) => Put(s, h, Joined(env, h, start, end, clock))
    case _ => Put(s, step.h, NodeAfter(env, s.now, s.log, s.nodes[step.h], step))
  }

  /** The states a finite run goes through. */
  ghost predicate IsRun(env: Env, run: seq<Sys>, steps: seq<Step>) {
    && |run| == |steps| + 1 && Init(run[0])
    && forall i :: 0 <= i < |steps| ==> Enabled(env, run[i], steps[i]) && run[i + 1] == After(env, run[i], steps[i])
  }

  // ----- what an outside observer sees -----

  /** The agent's own belief. */
  predicate Believes(s: Sys, h: string) {
    h in s.nodes && Believing(s.nodes[h].agent, s.nodes[h].clock)
  }

  /** Candidate.Status().Holding, evaluated at the time of the call from what was published. */
  predicate ReportsHolding(s: Sys, h: string) {
    h in s.nodes && s.nodes[h].clock < s.nodes[h].published.deadline
  }
}
