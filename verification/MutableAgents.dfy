/**
 The agent as the source has it: an object that owns a view and is updated in place by fetch
 results, records, acknowledgements and ticks, proved against the functions of module `Agents`.
 */
module MutableAgents {
  import opened Records
  import opened LeaseFold
  import opened Agents
  import Views
  import opened MutableViews

  class Agent {
    const cfg: Config
    const view: View
    var nextOffset: int
    var highWater: int
    var ownOutcomes: map<int, Outcome>
    var epoch: int
    var deadline: Time
    var inflight: Option<Inflight>
    var lastSend: Time
    var nextClaimAt: Time
    var connected: bool
    var fetchedOnce: bool
    var caughtUpAt: Time
    var lastRecordAt: Time
    var lastRecordBroker: Time

    ghost function Abs(): AgentState
      reads this, view
    {
      AgentState(view.Abs(), nextOffset, highWater, ownOutcomes, epoch, deadline, inflight, lastSend,
                 nextClaimAt, connected, fetchedOnce, caughtUpAt, lastRecordAt, lastRecordBroker)
    }

    constructor (cfg: Config, start: int, end: int, now: Time)
      requires 0 < cfg.ttl
      ensures this.cfg == cfg && fresh(view) && Abs() == Agents.New(cfg, start, end, now)
    {
      var v := new View(cfg.ttl);
      if start == 0 {
        v := new View.FromStart(cfg.ttl);
      }
      this.cfg, view := cfg, v;
      nextOffset, highWater, ownOutcomes := start, end, map[];
      epoch, deadline, inflight := -1, ZERO_TIME, None;
      lastSend, nextClaimAt := ZERO_TIME, ZERO_TIME;
      connected, fetchedOnce, caughtUpAt := true, false, now;
      lastRecordAt, lastRecordBroker := ZERO_TIME, ZERO_TIME;
    }

    method FetchFailed()
      modifies this
      ensures Abs() == Agents.FetchFailed(old(Abs()))
    {
      connected := false;
    }

    method Fetched(now: Time, hw: int)
      modifies this
      ensures Abs() == Agents.Fetched(old(Abs()), now, hw)
    {
      if !connected {
        connected := true;
        caughtUpAt := now;
      }
      fetchedOnce := true;
      highWater := Max(highWater, hw);
    }

    method Record(now: Time, r: Record) returns (ok: bool)
      modifies this, view
      ensures (Abs(), ok) == Agents.Read(cfg, old(Abs()), now, r)
    {
      if r.offset < nextOffset {
        return true;
      }
      if r.offset > nextOffset {
        view.Gap();
        caughtUpAt := now;
      }
      nextOffset := r.offset + 1;
      lastRecordAt := now;
      lastRecordBroker := r.timestamp;
      if r.kind == Unknown {
        return true;
      }
      var out, applied := view.Apply(r);
      if !applied {
        return false;
      }
      if r.holder == cfg.holder {
        OwnRecord(now, r.offset, r.kind, out);
      }
      var b := Believing(now);
      if b && view.certain {
        var s := view.state;
        if s.holder != cfg.holder || s.epoch != epoch || !s.HeldAt(view.clock) {
          DropBelief();
        }
      }
      return true;
    }

    method OwnRecord(now: Time, offset: int, kind: Kind, out: Outcome)
      modifies this
      ensures Abs() == Agents.OwnRecord(cfg, old(Abs()), now, offset, kind, out)
    {
      if inflight.None? || inflight.value.kind != kind {
        return;
      }
      if inflight.value.offset == -1 {
        ownOutcomes := ownOutcomes[offset := out];
        return;
      }
      if inflight.value.offset == offset {
        Settle(now, out);
      }
    }

    method Acked(now: Time, answer: Option<int>)
      modifies this
      ensures Abs() == Agents.Acked(cfg, old(Abs()), now, answer)
    {
      if inflight.None? {
        return;
      }
      if answer.None? {
        var kind := inflight.value.kind;
        inflight := None;
        if kind == Claim {
          nextClaimAt := now + cfg.renewEvery;
        }
        return;
      }
      inflight := Some(inflight.value.(offset := answer.value));
      if answer.value in ownOutcomes {
        Settle(now, ownOutcomes[answer.value]);
      }
    }

    method Settle(now: Time, out: Outcome)
      requires inflight.Some?
      modifies this
      ensures Abs() == Agents.Settle(cfg, old(Abs()), now, out)
    {
      var sent := inflight.value;
      inflight := None;
      ownOutcomes := map[];
      if out == Pending {
        return;
      }
      if sent.kind == Claim && out == Accepted {
        epoch := sent.offset;
        ExtendBelief(sent.sentAt);
      } else if sent.kind == Claim {
        var s := view.state;
        var brokerNow := BrokerNow(now);
        var wait := Min(Max(s.expires - brokerNow, cfg.PollEvery()), cfg.ttl);
        nextClaimAt := now + wait;
      } else if sent.kind == Renew && out == Accepted {
        var b := Believing(now);
        if b {
          ExtendBelief(sent.sentAt);
        }
      } else if sent.kind == Renew {
        DropBelief();
      }
    }

    method Believing(now: Time) returns (b: bool)
      ensures b == Agents.Believing(Abs(), now)
    {
      b := now < deadline;
    }

    method ExtendBelief(sentAt: Time)
      modifies this`deadline
      ensures Abs() == Agents.ExtendBelief(cfg, old(Abs()), sentAt)
    {
      deadline := sentAt + (cfg.ttl - cfg.margin);
    }

    method DropBelief()
      modifies this`deadline
      ensures Abs() == Agents.DropBelief(old(Abs()))
    {
      if deadline == ZERO_TIME {
        return;
      }
      deadline := ZERO_TIME;
    }

    method BrokerNow(now: Time) returns (t: Time)
      ensures t == Agents.BrokerNow(Abs(), now)
    {
      if lastRecordAt == ZERO_TIME {
        return view.clock;
      }
      return lastRecordBroker + (now - lastRecordAt);
    }

    method Tick(now: Time) returns (rec: Option<Record>)
      modifies this, view
      ensures (Abs(), rec) == Agents.Tick(cfg, old(Abs()), now)
    {
      var b := Believing(now);
      if !b && deadline != ZERO_TIME {
        DropBelief();
      }
      if connected && nextOffset >= highWater && !view.certain {
        var since := caughtUpAt;
        if lastRecordAt > since {
          since := lastRecordAt;
        }
        if now - since >= cfg.ttl + cfg.margin {
          var _ := view.Quiet(cfg.ttl);
        }
      }
      if inflight.Some? || !view.certain {
        return None;
      }
      b := Believing(now);
      var brokerNow := BrokerNow(now);
      if b {
        if now - lastSend >= cfg.renewEvery {
          rec := Send(now, Renew);
          return;
        }
      } else if now > nextClaimAt && !view.state.HeldAt(brokerNow) {
        rec := Send(now, Claim);
        return;
      }
      return None;
    }

    method Send(now: Time, kind: Kind) returns (rec: Option<Record>)
      modifies this
      ensures (Abs(), rec) == Agents.Send(cfg, old(Abs()), now, kind)
    {
      inflight := Some(Inflight(kind, now, -1));
      lastSend := now;
      rec := Some(NewRecord(cfg, kind, epoch));
    }

    method Release(now: Time) returns (rec: Option<Record>)
      modifies this
      ensures (Abs(), rec) == Agents.GiveUp(cfg, old(Abs()), now)
    {
      var b := Believing(now);
      if !b {
        return None;
      }
      var e := epoch;
      DropBelief();
      rec := Some(NewRecord(cfg, Kind.Release, e));
    }

    method Status(now: Time) returns (s: Status, d: Time, e: int)
      ensures (s, d, e) == StatusOf(Abs(), now)
    {
      s := Agents.Status(view.certain, Views.EMPTY_STATE, view.clock);
      if s.certain {
        s := s.(lease := view.state);
      }
      d := ZERO_TIME;
      var b := Believing(now);
      if b {
        d := deadline;
      }
      e := epoch;
    }
  }
}
