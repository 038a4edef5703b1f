/**
 The decision core of a participant (lease/agent.go): the writer rules on top of a view.
 `AgentState` and the functions on it say what each operation does; module `MutableAgents`
 does it in place.
 */
module Agents {
  import opened Records
  import opened LeaseFold
  import Views

  datatype Option<+T> = None | Some(value: T)

  /** The part of the configuration the decisions depend on. */
  datatype Config = Config(holder: string, ttl: Duration, margin: Duration, renewEvery: Duration) {
    function PollEvery(): Duration {
      if renewEvery >= 0 then renewEvery / 4 else -(-renewEvery / 4)
    }
  }

  /** The record in flight; its offset is -1 until the broker acknowledged it. */
  datatype Inflight = Inflight(kind: Kind, sentAt: Time, offset: int)

  datatype AgentState = AgentState(
    view: Views.ViewState,
    nextOffset: int,
    highWater: int,
    ownOutcomes: map<int, Outcome>,
    epoch: int,
    deadline: Time,
    inflight: Option<Inflight>,
    lastSend: Time,
    nextClaimAt: Time,
    connected: bool,
    fetchedOnce: bool,
    caughtUpAt: Time,
    lastRecordAt: Time,
    lastRecordBroker: Time
  )

  function New(cfg: Config, start: int, end: int, now: Time): AgentState {
    AgentState(
      if start == 0 then Views.NewFromStart(cfg.ttl) else Views.New(cfg.ttl),
      start, end, map[], -1, ZERO_TIME, None, ZERO_TIME, ZERO_TIME, true, false, now, ZERO_TIME, ZERO_TIME)
  }

  function FetchFailed(a: AgentState): AgentState {
    a.(connected := false)
  }

  function Fetched(a: AgentState, now: Time, highWater: int): AgentState {
    a.(connected := true,
       caughtUpAt := if a.connected then a.caughtUpAt else now,
       fetchedOnce := true,
       highWater := Max(a.highWater, highWater))
  }

  predicate Believing(a: AgentState, now: Time) {
    now < a.deadline
  }

  function ExtendBelief(cfg: Config, a: AgentState, sentAt: Time): AgentState {
    a.(deadline := sentAt + (cfg.ttl - cfg.margin))
  }

  function DropBelief(a: AgentState): AgentState {
    a.(deadline := ZERO_TIME)
  }

  function BrokerNow(a: AgentState, now: Time): Time {
    if a.lastRecordAt == ZERO_TIME then a.view.clock
    else a.lastRecordBroker + (now - a.lastRecordAt)
  }

  /** The fold's verdict on the record in flight, applied to the belief. */
  function Settle(cfg: Config, a: AgentState, now: Time, out: Outcome): AgentState
    requires a.inflight.Some?
  {
    var sent := a.inflight.value;
    var b := a.(inflight := None, ownOutcomes := map[]);
    if out == Pending then b
    else if sent.kind == Claim then
      if out == Accepted then ExtendBelief(cfg, b.(epoch := sent.offset), sent.sentAt)
      else b.(nextClaimAt := now + Min(Max(b.view.state.expires - BrokerNow(b, now), cfg.PollEvery()), cfg.ttl))
    else if sent.kind == Renew then
      if out != Accepted then DropBelief(b)
      else if Believing(b, now) then ExtendBelief(cfg, b, sent.sentAt)
      else b
    else b
  }

  /** A record written by this participant was read back. */
  function OwnRecord(cfg: Config, a: AgentState, now: Time, offset: int, kind: Kind, out: Outcome): AgentState {
    if a.inflight.None? || a.inflight.value.kind != kind then a
    else if a.inflight.value.offset == -1 then a.(ownOutcomes := a.ownOutcomes[offset := out])
    else if a.inflight.value.offset == offset then Settle(cfg, a, now, out)
    else a
  }

  /** Does the log, as the view shows it, still have this participant as the holder? */
  predicate TermGoesOn(cfg: Config, a: AgentState) {
    a.view.state.holder == cfg.holder && a.view.state.epoch == a.epoch && a.view.state.HeldAt(a.view.clock)
  }

  function CheckTerm(cfg: Config, a: AgentState, now: Time): AgentState {
    if Believing(a, now) && a.view.certain && !TermGoesOn(cfg, a) then DropBelief(a) else a
  }

  /** Position and silence bookkeeping for a record at a new offset. */
  function MoveTo(a: AgentState, now: Time, r: Record): AgentState {
    var b := if r.offset > a.nextOffset then a.(view := Views.Gap(a.view), caughtUpAt := now) else a;
    b.(nextOffset := r.offset + 1, lastRecordAt := now, lastRecordBroker := r.timestamp)
  }

  /** The next record of the log; `r.kind` is Unknown if its value does not decode. */
  function Read(cfg: Config, a: AgentState, now: Time, r: Record): (AgentState, bool) {
    if r.offset < a.nextOffset then (a, true)
    else
      var b := MoveTo(a, now, r);
      if r.kind == Unknown then (b, true)
      else
        var applied := Views.Apply(b.view, r);
        var c := b.(view := applied.view);
        if !applied.ok then (c, false)
        else
          var d := if r.holder == cfg.holder then OwnRecord(cfg, c, now, r.offset, r.kind, applied.outcome) else c;
          (CheckTerm(cfg, d, now), true)
  }

  /** `answer` is the offset at which what is in flight landed, or None if the client gave up on it. */
  function Acked(cfg: Config, a: AgentState, now: Time, answer: Option<int>): AgentState {
    if a.inflight.None? then a
    else if answer.None? then
      var b := a.(inflight := None);
      if a.inflight.value.kind == Claim then b.(nextClaimAt := now + cfg.renewEvery) else b
    else
      var b := a.(inflight := Some(a.inflight.value.(offset := answer.value)));
      if answer.value in a.ownOutcomes then Settle(cfg, b, now, a.ownOutcomes[answer.value]) else b
  }

  function Expire(a: AgentState, now: Time): AgentState {
    if !Believing(a, now) && a.deadline != ZERO_TIME then DropBelief(a) else a
  }

  function QuietSince(a: AgentState): Time {
    if a.lastRecordAt > a.caughtUpAt then a.lastRecordAt else a.caughtUpAt
  }

  /** The log has been silent for a TTL and a margin, as far as this participant can tell. */
  predicate QuietFires(cfg: Config, a: AgentState, now: Time) {
    a.connected && a.nextOffset >= a.highWater && !a.view.certain
    && now - QuietSince(a) >= cfg.ttl + cfg.margin
  }

  function Listen(cfg: Config, a: AgentState, now: Time): AgentState {
    if QuietFires(cfg, a, now) then a.(view := Views.Quiet(a.view, cfg.ttl).0) else a
  }

  function NewRecord(cfg: Config, kind: Kind, epoch: int): Record {
    Record(0, ZERO_TIME, kind, cfg.holder, if kind == Claim then 0 else epoch, cfg.ttl)
  }

  function Send(cfg: Config, a: AgentState, now: Time, kind: Kind): (AgentState, Option<Record>) {
    (a.(inflight := Some(Inflight(kind, now, -1)), lastSend := now), Some(NewRecord(cfg, kind, a.epoch)))
  }

  /** What a participant that knows where it stands writes now, if anything. */
  function Decide(cfg: Config, a: AgentState, now: Time): (AgentState, Option<Record>) {
    if a.inflight.Some? || !a.view.certain then (a, None)
    else if Believing(a, now) then
      if now - a.lastSend >= cfg.renewEvery then Send(cfg, a, now, Renew) else (a, None)
    else if now > a.nextClaimAt && !a.view.state.HeldAt(BrokerNow(a, now)) then Send(cfg, a, now, Claim)
    else (a, None)
  }

  function Tick(cfg: Config, a: AgentState, now: Time): (AgentState, Option<Record>) {
    Decide(cfg, Listen(cfg, Expire(a, now), now), now)
  }

  /** Giving the lease up: the belief goes first. */
  function GiveUp(cfg: Config, a: AgentState, now: Time): (AgentState, Option<Record>) {
    if !Believing(a, now) then (a, None)
    else (DropBelief(a), Some(NewRecord(cfg, Release, a.epoch)))
  }

  /** What the participant knows and believes. */
  datatype Status = Status(certain: bool, lease: State, asOf: Time)

  function StatusOf(a: AgentState, now: Time): (Status, Time, int) {
    (Status(a.view.certain, if a.view.certain then a.view.state else Views.EMPTY_STATE, a.view.clock),
     if Believing(a, now) then a.deadline else ZERO_TIME,
     a.epoch)
  }
}
