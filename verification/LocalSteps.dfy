/**
 The steps of one node, and the passing of time: reading, settling, ticking, releasing and
 publishing all keep the invariant.
 */
module LocalSteps {
  import opened Records
  import opened LeaseFold
  import opened Agents
  import opened Systems
  import opened LateReaders
  import opened Invariants
  import Views

  // ----- time -----

  function Later(c: Common, dt: int): Common {
    c.(now := c.now + dt)
  }

  lemma ClockAdvances(env: Env, dt: int, tick: int)
    requires env.Valid() && Ticking(env, dt, tick)
    ensures 0 <= tick && (env.Perfect() ==> tick == dt)
  {
    var n, d := env.rateNum, env.rateDen;
    assert 0 <= n * dt;
    if tick < 0 {
      Scale(d, tick, 0);
    }
    if n == d && tick != dt {
      assert (2 * d - n) * dt == d * dt;
      Scale(d, dt, tick);
      Scale(d, tick, dt);
    }
  }

  lemma DriftAccumulates(env: Env, now: Time, clock: Time, sent: Sent, dt: int, tick: int)
    requires env.Valid() && Drifts(env, now, clock, sent) && Ticking(env, dt, tick)
    ensures Drifts(env, now + dt, clock + tick, sent)
  {
    ClockAdvances(env, dt, tick);
    var n, d := env.rateNum, env.rateDen;
    assert n * (now + dt - sent.at) == n * (now - sent.at) + n * dt;
    assert d * (clock + tick - sent.local) == d * (clock - sent.local) + d * tick;
  }

  lemma ViewOkLater(env: Env, c: Common, hs: set<string>, n: Node, dt: int, tick: int)
    requires env.Valid() && LogInv(env, c, hs) && ViewOk(env, c, n) && Ticking(env, dt, tick)
    ensures ViewOk(env, Later(c, dt), n.(clock := n.clock + tick))
  {
    ClockAdvances(env, dt, tick);
  }

  lemma BackedLater(env: Env, c: Common, h: string, clock: Time, deadline: Time, epoch: int, k: int, dt: int, tick: int)
    requires env.Valid() && Backed(env, c, h, clock, deadline, epoch, k) && Ticking(env, dt, tick)
    ensures Backed(env, Later(c, dt), h, clock + tick, deadline, epoch, k)
  {
    if deadline != ZERO_TIME {
      DriftAccumulates(env, c.now, clock, c.sends[k], dt, tick);
    }
  }

  lemma FlightLater(env: Env, c: Common, h: string, n: Node, dt: int, tick: int)
    requires env.Valid() && FlightOk(env, c, h, n) && Ticking(env, dt, tick)
    ensures FlightOk(env, Later(c, dt), h, n.(clock := n.clock + tick))
  {
    if n.flight != NoFlight {
      DriftAccumulates(env, c.now, n.clock, n.flight.m.sent, dt, tick);
    }
  }

  lemma WireLater(env: Env, c: Common, h: string, n: Node, dt: int, tick: int)
    requires WireOk(env, c, h, n) && 0 <= dt && 0 <= tick
    ensures WireOk(env, Later(c, dt), h, n.(clock := n.clock + tick))
  {
    forall m | m in n.wire ensures MsgOk(env, Later(c, dt), h, n.(clock := n.clock + tick), m) {
      assert MsgOk(env, c, h, n, m);
    }
  }

  lemma ElapsedLater(env: Env, since: Time, clock: Time, at: Time, now: Time, dt: int, tick: int)
    requires Elapsed(env, since, clock, at, now) && Ticking(env, dt, tick)
    ensures Elapsed(env, since, clock + tick, at, now + dt)
  {
    var d, f := env.rateDen, 2 * env.rateDen - env.rateNum;
    assert d * (clock + tick - since) == d * (clock - since) + d * tick;
    assert f * (now + dt - at) == f * (now - at) + f * dt;
  }

  lemma ElapsedAtOnce(env: Env, since: Time, clock: Time, at: Time, now: Time)
    requires env.Valid() && clock <= since && at <= now
    ensures Elapsed(env, since, clock, at, now)
  {
    assert env.rateDen * (clock - since) <= 0 <= (2 * env.rateDen - env.rateNum) * (now - at);
  }

  lemma QuietLater(env: Env, c: Common, n: Node, dt: int, tick: int)
    requires env.Valid() && QuietOk(env, c, n) && Ticking(env, dt, tick)
    ensures QuietOk(env, Later(c, dt), n.(clock := n.clock + tick))
  {
    ClockAdvances(env, dt, tick);
    hide Elapsed, Ticking;
    if env.skew == 0 {
      ElapsedLater(env, QuietSince(n.agent), n.clock, LastStamp(c.log[..n.agent.nextOffset]), c.now, dt, tick);
    }
  }

  lemma NodeLater(env: Env, c: Common, hs: set<string>, h: string, n: Node, dt: int, tick: int)
    requires env.Valid() && LogInv(env, c, hs) && NodeInv(env, c, h, n) && Ticking(env, dt, tick)
    ensures NodeInv(env, Later(c, dt), h, n.(clock := n.clock + tick))
  {
    ClockAdvances(env, dt, tick);
    ViewOkLater(env, c, hs, n, dt, tick);
    BackedLater(env, c, h, n.clock, n.agent.deadline, n.agent.epoch, n.backing, dt, tick);
    BackedLater(env, c, h, n.clock, n.published.deadline, n.published.epoch, n.published.backing, dt, tick);
    FlightLater(env, c, h, n, dt, tick);
    WireLater(env, c, h, n, dt, tick);
    QuietLater(env, c, n, dt, tick);
  }

  lemma LogInvLater(env: Env, c: Common, hs: set<string>, dt: int)
    requires LogInv(env, c, hs) && 0 <= dt
    ensures LogInv(env, Later(c, dt), hs)
  {
  }

  /** A state is as good as its log and its nodes. */
  lemma Assemble(env: Env, s: Sys, c: Common, nodes: map<string, Node>)
    requires env.Valid() && env.MarginCovers() && env.Readable()
    requires c == CommonOf(s) && nodes == s.nodes
    requires LogInv(env, c, nodes.Keys)
    requires forall h :: h in nodes ==> NodeInv(env, c, h, nodes[h])
    ensures Inv(env, s)
  {
  }

  function Aged(nodes: map<string, Node>, ticks: map<string, int>): (aged: map<string, Node>)
    requires nodes.Keys == ticks.Keys
    ensures aged.Keys == nodes.Keys
  {
    map h | h in nodes :: nodes[h].(clock := nodes[h].clock + ticks[h])
  }

  lemma TimeKeepsInv(env: Env, s: Sys, dt: int, ticks: map<string, int>)
    requires Inv(env, s) && Enabled(env, s, TimePasses(dt, ticks))
    ensures Inv(env, After(env, s, TimePasses(dt, ticks)))
  {
    hide NodeInv, LogInv;
    var c, aged := CommonOf(s), Aged(s.nodes, ticks);
    LogInvLater(env, c, s.nodes.Keys, dt);
    forall h | h in aged ensures NodeInv(env, Later(c, dt), h, aged[h]) {
      var n := s.nodes[h];
      assert aged[h] == n.(clock := n.clock + ticks[h]);
      NodeLater(env, c, s.nodes.Keys, h, n, dt, ticks[h]);
    }
    Assemble(env, After(env, s, TimePasses(dt, ticks)), Later(c, dt), aged);
  }

  // ----- beliefs -----

  lemma DropKeeps(env: Env, c: Common, h: string, n: Node, k: int)
    requires env.Valid() && NodeInv(env, c, h, n)
    ensures NodeInv(env, c, h, n.(agent := DropBelief(n.agent), backing := k))
  {
    var n' := n.(agent := DropBelief(n.agent), backing := k);
    forall m | m in n.wire ensures MsgOk(env, c, h, n', m) {
      assert MsgOk(env, c, h, n, m);
    }
  }

  /** Nothing else of the term a believer is about to write for can still land. */
  lemma TermIsClear(env: Env, c: Common, h: string, n: Node)
    requires ViewOk(env, c, n) && WireOk(env, c, h, n)
    requires Believing(n.agent, n.clock) && n.flight == NoFlight
    ensures forall m :: m in n.wire && m.rec.kind != Claim ==> m.rec.epoch != n.agent.epoch
  {
    forall m | m in n.wire && m.rec.kind != Claim ensures m.rec.epoch != n.agent.epoch {
      assert MsgOk(env, c, h, n, m);
    }
  }

  /** What a believer writes about its term, the log backs. */
  lemma BelieverBacks(env: Env, c: Common, hs: set<string>, h: string, n: Node, r: Record)
    requires env.Valid() && env.MarginCovers() && LogInv(env, c, hs) && NodeInv(env, c, h, n)
    requires Believing(n.agent, n.clock) && r.kind in {Renew, Release} && r.Term() == (h, n.agent.epoch)
    ensures Backs(env.ttl, c.log, r)
  {
    BelieverHolds(env, c, hs, h, n);
    forall i | 0 <= i < |c.log| && c.log[i].Asserts() && ValidTtl(env.ttl, c.log[i]) && c.log[i].Term() == r.Term()
      ensures Verdict(env.ttl, c.log, i) == Accepted
    {
      LiveTermAcceptedAll(env.ttl, c.log, i);
    }
  }

  // ----- settling -----

  lemma SettledFlight(env: Env, c: Common, h: string, n: Node, out: Outcome)
    requires env.Valid() && NodeInv(env, c, h, n) && n.outbox.None?
    requires n.flight.Landed? && n.agent.inflight.value.offset == n.flight.at < n.agent.nextOffset
    requires out == Pending || out == Verdict(env.ttl, c.log, n.flight.at)
    ensures var n' := Resolved(n, Settle(env.Cfg(h), n.agent, n.clock, out));
            Backed(env, c, h, n'.clock, n'.agent.deadline, n'.agent.epoch, n'.backing)
            && OwnLogOk(c, h, n') && FlightOk(env, c, h, n')
  {
  }

  lemma SettledWire(env: Env, c: Common, h: string, n: Node, out: Outcome)
    requires env.Valid() && NodeInv(env, c, h, n) && n.outbox.None?
    requires n.flight.Landed? && n.agent.inflight.value.offset == n.flight.at < n.agent.nextOffset
    requires out == Pending || out == Verdict(env.ttl, c.log, n.flight.at)
    ensures WireOk(env, c, h, Resolved(n, Settle(env.Cfg(h), n.agent, n.clock, out)))
  {
    var n' := Resolved(n, Settle(env.Cfg(h), n.agent, n.clock, out));
    forall m | m in n.wire ensures MsgOk(env, c, h, n', m) {
      assert MsgOk(env, c, h, n, m);
    }
  }

  lemma SettledFrame(env: Env, h: string, n: Node, out: Outcome)
    requires n.agent.inflight.Some?
    ensures var n' := Resolved(n, Settle(env.Cfg(h), n.agent, n.clock, out));
            n' == n.(agent := n'.agent, flight := n'.flight, backing := n'.backing)
            && n'.agent == n.agent.(inflight := None, ownOutcomes := map[], epoch := n'.agent.epoch, deadline := n'.agent.deadline,
                                    nextClaimAt := n'.agent.nextClaimAt)
            && n'.agent.epoch in {n.agent.epoch, n.agent.inflight.value.offset}
  {
  }

  /** The verdict on the record in flight, once its offset is known and it has been read. */
  lemma SettleKeeps(env: Env, c: Common, h: string, n: Node, out: Outcome)
    requires env.Valid() && NodeInv(env, c, h, n) && n.outbox.None?
    requires n.flight.Landed? && n.agent.inflight.value.offset == n.flight.at < n.agent.nextOffset
    requires out == Pending || out == Verdict(env.ttl, c.log, n.flight.at)
    ensures NodeInv(env, c, h, Resolved(n, Settle(env.Cfg(h), n.agent, n.clock, out)))
  {
    SettledFlight(env, c, h, n, out);
    SettledWire(env, c, h, n, out);
    SettledFrame(env, h, n, out);
    hide Settle, Resolved, Backed, OwnLogOk, FlightOk, WireOk, Verdict;
  }

  /** Changing only what the invariant does not look at. */
  lemma SameWire(env: Env, c: Common, h: string, n: Node, n': Node)
    requires WireOk(env, c, h, n)
    requires n'.agent.epoch == n.agent.epoch && n'.agent.deadline == n.agent.deadline && n'.published == n.published
    requires n'.wire <= n.wire && n'.flight == n.flight && n'.clock == n.clock && n'.outbox == n.outbox
    requires n'.outbox.Some? ==> n'.outbox.value in n'.wire && n'.agent.inflight == n.agent.inflight && n'.outPublished == n.outPublished
    ensures WireOk(env, c, h, n')
  {
    forall m | m in n'.wire ensures MsgOk(env, c, h, n', m) {
      assert MsgOk(env, c, h, n, m);
    }
  }

  /** Steps that leave belief, wire and flight alone. */
  lemma Reframe(env: Env, c: Common, h: string, n: Node, n': Node)
    requires NodeInv(env, c, h, n) && ViewOk(env, c, n') && OutcomesOk(env, c, n') && QuietOk(env, c, n')
    requires n'.clock == n.clock && n'.wire <= n.wire && n'.flight == n.flight && n'.backing == n.backing
    requires n'.published == n.published && n'.outbox == n.outbox && n'.outPublished == n.outPublished
    requires n'.agent.epoch == n.agent.epoch && n'.agent.deadline == n.agent.deadline && n'.agent.inflight == n.agent.inflight
    requires n'.outbox.Some? ==> n'.outbox.value in n'.wire
    ensures NodeInv(env, c, h, n')
  {
    SameWire(env, c, h, n, n');
  }

  /** The node once it knows the offset of its record in flight. */
  function Informed(n: Node): Node
    requires n.flight.Landed? && n.agent.inflight.Some?
  {
    n.(agent := n.agent.(inflight := Some(n.agent.inflight.value.(offset := n.flight.at))))
  }

  lemma InformedKeeps(env: Env, c: Common, h: string, n: Node)
    requires NodeInv(env, c, h, n) && n.outbox.None? && n.flight.Landed? && n.agent.inflight.Some?
    ensures NodeInv(env, c, h, Informed(n))
  {
    SameWire(env, c, h, n, Informed(n));
  }

  /** An acknowledgement is: note the offset, and settle if the record was read before. */
  lemma AckDecomposes(env: Env, c: Common, h: string, n: Node)
    requires env.Valid() && FlightOk(env, c, h, n) && OutcomesOk(env, c, n) && n.flight.Landed? && n.outbox.None?
    ensures n.agent.inflight.Some?
    ensures var i, k := Informed(n), n.flight.at;
            i.flight == n.flight && i.outbox.None? && i.agent.inflight.value.offset == k
            && (if k in n.agent.ownOutcomes then
                  var out := n.agent.ownOutcomes[k];
                  AckedBy(env, h, n) == Resolved(i, Settle(env.Cfg(h), i.agent, i.clock, out))
                  && 0 <= k < |c.log| && k < i.agent.nextOffset && (out == Pending || out == Verdict(env.ttl, c.log, k))
                else AckedBy(env, h, n) == i)
  {
  }

  lemma AckKeeps(env: Env, c: Common, h: string, n: Node)
    requires env.Valid() && NodeInv(env, c, h, n) && n.outbox.None? && n.flight.Landed?
    ensures NodeInv(env, c, h, AckedBy(env, h, n))
  {
    AckDecomposes(env, c, h, n);
    hide NodeInv, AckedBy, Settle, Resolved, Informed;
    InformedKeeps(env, c, h, n);
    if n.flight.at in n.agent.ownOutcomes {
      SettleKeeps(env, c, h, Informed(n), n.agent.ownOutcomes[n.flight.at]);
    }
  }

  lemma GiveUpKeeps(env: Env, c: Common, h: string, n: Node)
    requires env.Valid() && NodeInv(env, c, h, n) && n.outbox.None? && n.flight != NoFlight
    requires n.flight.m.sent.local + env.ttl <= n.clock || (n.flight.Flying? && n.flight.m !in n.wire)
    ensures NodeInv(env, c, h, GivenUpBy(env, h, n))
  {
    var n' := GivenUpBy(env, h, n);
    forall m | m in n.wire ensures MsgOk(env, c, h, n', m) {
      assert MsgOk(env, c, h, n, m);
    }
  }

  // ----- reading -----

  /** The node once its view took in the record at offset `at`, before it looks at its own affairs. */
  function Viewed(n: Node, r: Record): Node {
    var b := MoveTo(n.agent, n.clock, r);
    n.(agent := if r.kind == Unknown then b else b.(view := Views.Apply(b.view, r).view),
       gap := if r.offset > n.agent.nextOffset then r.offset else n.gap)
  }

  function Heard(n: Node, r: Record): Views.Applied {
    Views.Apply(MoveTo(n.agent, n.clock, r).view, r)
  }

  /** The stamps around the read position of a log that never steps backwards. */
  lemma StampsInOrder(env: Env, c: Common, hs: set<string>, k: int, at: int)
    requires env.skew == 0 && env.soloRelease && LogInv(env, c, hs) && 0 <= k <= at < |c.log|
    ensures NextStamp(c, k) <= c.log[at].timestamp <= NextStamp(c, at + 1)
    ensures Sorted(c.log[..at]) && Sorted(c.log[..at] + [c.log[at]]) && Indexed(c.log[..at])
    ensures c.log[..at] + [c.log[at]] == c.log[..at + 1]
    ensures TruthOf(env.ttl, c.log[..at]).clock <= c.log[at].timestamp
    ensures Backs(env.ttl, c.log[..at], c.log[at])
  {
    PrefixIsReadable(env.ttl, c.log, at);
    SortedPrefix(c.log, at + 1);
    SortedPair(c.log, k, at);
    SortedPair(c.log, at, if at + 1 < |c.log| then at + 1 else at);
  }

  /** Up to, and not including, the record at the new position. */
  lemma SoundMoves(env: Env, c: Common, hs: set<string>, n: Node, at: int)
    requires env.Valid() && !env.wholeLog && LogInv(env, c, hs) && ViewOk(env, c, n)
    requires n.agent.nextOffset <= at < |c.log|
    ensures Sound(env.ttl, c.log[..at], c.log[at].timestamp, Viewed(n, c.log[at]).gap, MoveTo(n.agent, n.clock, c.log[at]).view)
  {
    var k, r := n.agent.nextOffset, c.log[at];
    StampsInOrder(env, c, hs, k, at);
    if at > k {
      SoundGap(env.ttl, c.log[..k], NextStamp(c, k), n.gap, n.agent.view, c.log[..at], r.timestamp);
    }
  }

  lemma TailViewReads(env: Env, c: Common, hs: set<string>, n: Node, at: int)
    requires env.Valid() && !env.wholeLog && LogInv(env, c, hs) && ViewOk(env, c, n)
    requires n.agent.nextOffset <= at < |c.log|
    ensures ViewOk(env, c, Viewed(n, c.log[at]))
    ensures c.log[at].kind != Unknown ==>
              Heard(n, c.log[at]).ok && (Heard(n, c.log[at]).outcome in {Pending, Verdict(env.ttl, c.log, at)})
  {
    var r, p, b := c.log[at], c.log[..at], MoveTo(n.agent, n.clock, c.log[at]);
    var n' := Viewed(n, r);
    SoundMoves(env, c, hs, n, at);
    StampsInOrder(env, c, hs, n.agent.nextOffset, at);
    if r.kind == Unknown {
      SoundSkip(env.ttl, p, r.timestamp, n'.gap, b.view, r);
    } else {
      SoundApply(env.ttl, p, r.timestamp, n'.gap, b.view, r);
    }
    SoundLater(env.ttl, p + [r], r.timestamp, NextStamp(c, at + 1), n'.gap, n'.agent.view);
  }

  lemma WholeViewReads(env: Env, c: Common, hs: set<string>, n: Node)
    requires env.Valid() && env.wholeLog && LogInv(env, c, hs) && ViewOk(env, c, n)
    requires n.agent.nextOffset < |c.log|
    ensures var r := c.log[n.agent.nextOffset];
            ViewOk(env, c, Viewed(n, r))
            && (r.kind != Unknown ==> Heard(n, r).ok && Heard(n, r).outcome == Verdict(env.ttl, c.log, n.agent.nextOffset))
  {
    TruthOfNext(env.ttl, c.log, n.agent.nextOffset);
  }

  lemma ViewReads(env: Env, c: Common, hs: set<string>, n: Node, at: int)
    requires env.Valid() && LogInv(env, c, hs) && ViewOk(env, c, n)
    requires n.agent.nextOffset <= at < |c.log| && (env.wholeLog ==> at == n.agent.nextOffset)
    ensures ViewOk(env, c, Viewed(n, c.log[at]))
    ensures c.log[at].kind != Unknown ==>
              Heard(n, c.log[at]).ok && (Heard(n, c.log[at]).outcome in {Pending, Verdict(env.ttl, c.log, at)})
  {
    if env.wholeLog {
      WholeViewReads(env, c, hs, n);
    } else {
      TailViewReads(env, c, hs, n, at);
    }
  }

  lemma QuietOkReads(env: Env, c: Common, hs: set<string>, n: Node, at: int)
    requires env.Valid() && LogInv(env, c, hs) && ViewOk(env, c, n) && QuietOk(env, c, n)
    requires n.agent.nextOffset <= at < |c.log|
    ensures QuietOk(env, c, Viewed(n, c.log[at]))
  {
    if env.skew == 0 {
      SortedPair(c.log, at, at);
      assert LastStamp(c.log[..at + 1]) == c.log[at].timestamp;
      ElapsedAtOnce(env, QuietSince(Viewed(n, c.log[at]).agent), n.clock, c.log[at].timestamp, c.now);
    }
  }

  lemma ViewedFrame(n: Node, r: Record)
    ensures var n' := Viewed(n, r);
            n' == n.(agent := n'.agent, gap := n'.gap)
            && n'.agent == n.agent.(view := n'.agent.view, nextOffset := r.offset + 1, caughtUpAt := n'.agent.caughtUpAt,
                                    lastRecordAt := n.clock, lastRecordBroker := r.timestamp)
  {
  }

  lemma ViewedKeeps(env: Env, c: Common, hs: set<string>, h: string, n: Node, at: int)
    requires env.Valid() && LogInv(env, c, hs) && NodeInv(env, c, h, n)
    requires n.agent.nextOffset <= at < |c.log| && (env.wholeLog ==> at == n.agent.nextOffset)
    ensures NodeInv(env, c, h, Viewed(n, c.log[at]))
    ensures c.log[at].kind != Unknown ==>
              Heard(n, c.log[at]).ok && (Heard(n, c.log[at]).outcome in {Pending, Verdict(env.ttl, c.log, at)})
  {
    ViewReads(env, c, hs, n, at);
    QuietOkReads(env, c, hs, n, at);
    ViewedFrame(n, c.log[at]);
    Reframe(env, c, h, n, Viewed(n, c.log[at]));
  }

  function OwnRead(env: Env, h: string, n: Node, r: Record, out: Outcome): Node {
    Resolved(n, if r.holder == h then OwnRecord(env.Cfg(h), n.agent, n.clock, r.offset, r.kind, out) else n.agent)
  }

  lemma RemembersKeeps(env: Env, c: Common, h: string, n: Node, at: int, out: Outcome)
    requires NodeInv(env, c, h, n)
    requires 0 <= at < |c.log| && at < n.agent.nextOffset && out in {Pending, Verdict(env.ttl, c.log, at)}
    ensures NodeInv(env, c, h, n.(agent := n.agent.(ownOutcomes := n.agent.ownOutcomes[at := out])))
  {
    Reframe(env, c, h, n, n.(agent := n.agent.(ownOutcomes := n.agent.ownOutcomes[at := out])));
  }

  /** Which of its three courses OwnRecord takes. */
  lemma OwnReadCases(env: Env, c: Common, h: string, n: Node, r: Record, out: Outcome)
    requires FlightOk(env, c, h, n)
    ensures var n', f := OwnRead(env, h, n, r, out), n.agent.inflight;
            n' == n
            || n' == n.(agent := n.agent.(ownOutcomes := n.agent.ownOutcomes[r.offset := out]))
            || (n.flight.Landed? && f.value.offset == n.flight.at == r.offset
                && n' == Resolved(n, Settle(env.Cfg(h), n.agent, n.clock, out)))
  {
  }

  /** An own record came back: remembered, settled or ignored. */
  lemma OwnReadKeeps(env: Env, c: Common, h: string, n: Node, at: int, out: Outcome)
    requires env.Valid() && NodeInv(env, c, h, n) && n.outbox.None?
    requires 0 <= at < |c.log| && at < n.agent.nextOffset && out in {Pending, Verdict(env.ttl, c.log, at)}
    requires c.log[at].offset == at
    ensures NodeInv(env, c, h, OwnRead(env, h, n, c.log[at], out))
  {
    var n', f := OwnRead(env, h, n, c.log[at], out), n.agent.inflight;
    OwnReadCases(env, c, h, n, c.log[at], out);
    hide NodeInv, OwnRead, Settle, Resolved;
    if n' == n {
    } else if n' == n.(agent := n.agent.(ownOutcomes := n.agent.ownOutcomes[at := out])) {
      RemembersKeeps(env, c, h, n, at, out);
    } else {
      SettleKeeps(env, c, h, n, out);
    }
  }

  /** A read is: move the view, settle what is one's own, check that the term goes on. */
  lemma ReadDecomposes(env: Env, c: Common, h: string, n: Node, r: Record)
    requires FlightOk(env, c, h, n)
    ensures r.offset < n.agent.nextOffset ==> ReadBy(env, h, n, r) == n
    ensures n.agent.nextOffset <= r.offset && r.kind == Unknown ==> ReadBy(env, h, n, r) == Viewed(n, r)
    ensures n.agent.nextOffset <= r.offset && r.kind != Unknown && Heard(n, r).ok ==>
              var w := OwnRead(env, h, Viewed(n, r), r, Heard(n, r).outcome);
              var n' := ReadBy(env, h, n, r);
              n' == w || n' == w.(agent := DropBelief(w.agent), backing := n'.backing)
  {
  }

  lemma OwnReadOutbox(env: Env, h: string, n: Node, r: Record, out: Outcome)
    ensures OwnRead(env, h, n, r, out).outbox == n.outbox && Viewed(n, r).outbox == n.outbox
  {
  }

  lemma ReadKeeps(env: Env, c: Common, hs: set<string>, h: string, n: Node, at: int)
    requires env.Valid() && LogInv(env, c, hs) && NodeInv(env, c, h, n) && n.outbox.None?
    requires 0 <= at < |c.log| && (env.wholeLog ==> at <= n.agent.nextOffset)
    ensures NodeInv(env, c, h, ReadBy(env, h, n, c.log[at]))
  {
    var r := c.log[at];
    var n' := ReadBy(env, h, n, r);
    ReadDecomposes(env, c, h, n, r);
    hide NodeInv, ReadBy, Viewed, OwnRead, Heard;
    if at >= n.agent.nextOffset {
      ViewedKeeps(env, c, hs, h, n, at);
      if r.kind != Unknown {
        var w := OwnRead(env, h, Viewed(n, r), r, Heard(n, r).outcome);
        OwnReadOutbox(env, h, n, r, Heard(n, r).outcome);
        OwnReadKeeps(env, c, h, Viewed(n, r), at, Heard(n, r).outcome);
        if n' != w {
          DropKeeps(env, c, h, w, n'.backing);
        }
      }
    }
  }

  // ----- ticking -----

  /** When quiet fires on a fresh fetch, every term below the read position is over for every
      stamp a later record can carry. */
  lemma QuietIsSound(env: Env, c: Common, hs: set<string>, h: string, n: Node)
    requires env.Valid() && LogInv(env, c, hs) && ViewOk(env, c, n) && QuietOk(env, c, n)
    requires env.QuietCovers() && QuietFires(env.Cfg(h), n.agent, n.clock) && c.now - env.fetchAge <= n.fetchedAt
    ensures !env.wholeLog && env.skew == 0
    ensures !TruthOf(env.ttl, c.log[..n.agent.nextOffset]).state.HeldAt(NextStamp(c, n.agent.nextOffset))
  {
    var p := c.log[..n.agent.nextOffset];
    TermsAreShort(env.ttl, p, env.wireTtl);
    SortedPrefix(c.log, n.agent.nextOffset);
    SortedClock(env.ttl, p);
    SilenceIsLong(env, QuietSince(n.agent), n.clock, LastStamp(p), c.now);
  }

  /** Silence for a TTL and a margin, by the fastest clock, began before the records that the last fetch
      could have missed, and by more than a TTL. */
  lemma SilenceIsLong(env: Env, since: Time, clock: Time, at: Time, now: Time)
    requires env.Valid() && env.QuietCovers() && Elapsed(env, since, clock, at, now) && env.ttl + env.margin <= clock - since
    ensures at + env.wireTtl <= now - env.fetchAge
  {
    var d, f := env.rateDen, 2 * env.rateDen - env.rateNum;
    assert d * (env.ttl + env.margin) <= d * (clock - since);
    Scale(f, now - at, env.wireTtl + env.fetchAge);
  }

  lemma ListenKeeps(env: Env, c: Common, hs: set<string>, h: string, n: Node)
    requires env.Valid() && env.Readable() && LogInv(env, c, hs) && NodeInv(env, c, h, n)
    requires QuietFires(env.Cfg(h), n.agent, n.clock) ==> c.now - env.fetchAge <= n.fetchedAt
    ensures NodeInv(env, c, h, n.(agent := Listen(env.Cfg(h), n.agent, n.clock)))
  {
    if QuietFires(env.Cfg(h), n.agent, n.clock) {
      QuietIsSound(env, c, hs, h, n);
      SoundFree(env.ttl, c.log[..n.agent.nextOffset], NextStamp(c, n.agent.nextOffset), n.gap, n.agent.view);
      Reframe(env, c, h, n, n.(agent := Listen(env.Cfg(h), n.agent, n.clock)));
    }
  }

  function Sending(env: Env, h: string, now: Time, n: Node, kind: Kind): Node {
    var (a, rec) := Send(env.Cfg(h), n.agent, n.clock, kind);
    var m := Msg(n.nextId, rec.value, Sent(now, n.clock));
    n.(agent := a, wire := n.wire + {m}, nextId := n.nextId + 1, flight := Flying(m))
  }

  lemma SendClaimKeeps(env: Env, c: Common, hs: set<string>, h: string, n: Node)
    requires env.Valid() && LogInv(env, c, hs) && NodeInv(env, c, h, n) && n.outbox.None?
    requires n.agent.inflight.None? && n.agent.deadline == ZERO_TIME
    ensures NodeInv(env, c, h, Sending(env, h, c.now, n, Claim))
  {
    var n' := Sending(env, h, c.now, n, Claim);
    forall m | m in n'.wire ensures MsgOk(env, c, h, n', m) {
      assert m in n.wire ==> MsgOk(env, c, h, n, m);
    }
  }

  lemma SendRenewKeeps(env: Env, c: Common, hs: set<string>, h: string, n: Node)
    requires env.Valid() && env.MarginCovers() && LogInv(env, c, hs) && NodeInv(env, c, h, n) && n.outbox.None?
    requires n.agent.inflight.None? && Believing(n.agent, n.clock)
    ensures NodeInv(env, c, h, Sending(env, h, c.now, n, Renew))
  {
    var n' := Sending(env, h, c.now, n, Renew);
    TermIsClear(env, c, h, n);
    BelieverBacks(env, c, hs, h, n, n'.flight.m.rec);
    BelieverHolds(env, c, hs, h, n);
    EpochIsAnAcceptedClaim(env.ttl, c.log);
    forall m | m in n'.wire ensures MsgOk(env, c, h, n', m) {
      assert m in n.wire ==> MsgOk(env, c, h, n, m);
    }
  }

  function Expired(n: Node): Node {
    n.(agent := Expire(n.agent, n.clock))
  }

  function Listened(env: Env, h: string, n: Node): Node {
    n.(agent := Listen(env.Cfg(h), n.agent, n.clock))
  }

  /** A tick is: expire, listen, and perhaps send. */
  lemma TickDecomposes(env: Env, h: string, now: Time, n: Node)
    requires ZERO_TIME < n.clock
    ensures var l, n' := Listened(env, h, Expired(n)), TickedBy(env, h, now, n);
            n' == l
            || (n' == Sending(env, h, now, l, Renew) && l.agent.inflight.None? && Believing(l.agent, l.clock))
            || (n' == Sending(env, h, now, l, Claim) && l.agent.inflight.None? && l.agent.deadline == ZERO_TIME)
    ensures Expired(n) == n || Expired(n) == n.(agent := DropBelief(n.agent), backing := n.backing)
    ensures QuietFires(env.Cfg(h), Expired(n).agent, n.clock) <==> QuietFires(env.Cfg(h), n.agent, n.clock)
  {
  }

  lemma TickFrame(env: Env, h: string, n: Node)
    ensures var e, l := Expired(n), Listened(env, h, Expired(n));
            e.clock == n.clock == l.clock && e.outbox == n.outbox == l.outbox && e.fetchedAt == n.fetchedAt
            && l == e.(agent := Listen(env.Cfg(h), e.agent, e.clock))
  {
  }

  lemma TickKeeps(env: Env, c: Common, hs: set<string>, h: string, n: Node)
    requires env.Valid() && env.MarginCovers() && env.Readable()
    requires LogInv(env, c, hs) && NodeInv(env, c, h, n) && n.outbox.None?
    requires QuietFires(env.Cfg(h), n.agent, n.clock) ==> c.now - env.fetchAge <= n.fetchedAt
    ensures NodeInv(env, c, h, TickedBy(env, h, c.now, n))
  {
    var l, n' := Listened(env, h, Expired(n)), TickedBy(env, h, c.now, n);
    TickDecomposes(env, h, c.now, n);
    TickFrame(env, h, n);
    hide NodeInv, LogInv, TickedBy, Sending, QuietFires;
    if Expired(n) != n {
      DropKeeps(env, c, h, n, n.backing);
    }
    ListenKeeps(env, c, hs, h, Expired(n));
    if n' == l {
    } else if n' == Sending(env, h, c.now, l, Renew) && Believing(l.agent, l.clock) {
      SendRenewKeeps(env, c, hs, h, l);
    } else {
      SendClaimKeeps(env, c, hs, h, l);
    }
  }

  // ----- giving the lease up -----

  lemma ReleaseWire(env: Env, c: Common, hs: set<string>, h: string, n: Node)
    requires env.Valid() && env.MarginCovers() && LogInv(env, c, hs) && NodeInv(env, c, h, n) && n.outbox.None?
    requires (env.soloRelease ==> n.agent.inflight.None?) && Believing(n.agent, n.clock)
    ensures WireOk(env, c, h, ReleasedBy(env, h, c.now, n))
  {
    var n' := ReleasedBy(env, h, c.now, n);
    if env.soloRelease {
      TermIsClear(env, c, h, n);
      BelieverBacks(env, c, hs, h, n, n'.outbox.value.rec);
    }
    BelieverHolds(env, c, hs, h, n);
    EpochIsAnAcceptedClaim(env.ttl, c.log);
    forall m | m in n'.wire ensures MsgOk(env, c, h, n', m) {
      assert m in n.wire ==> MsgOk(env, c, h, n, m);
    }
  }

  lemma ReleaseKeeps(env: Env, c: Common, hs: set<string>, h: string, n: Node)
    requires env.Valid() && env.MarginCovers() && LogInv(env, c, hs) && NodeInv(env, c, h, n) && n.outbox.None?
    requires env.soloRelease ==> n.agent.inflight.None?
    ensures NodeInv(env, c, h, ReleasedBy(env, h, c.now, n))
  {
    if Believing(n.agent, n.clock) {
      ReleaseWire(env, c, hs, h, n);
    } else {
      assert ReleasedBy(env, h, c.now, n) == n;
    }
  }

  lemma PublishKeeps(env: Env, c: Common, h: string, n: Node)
    requires env.Valid() && NodeInv(env, c, h, n)
    ensures NodeInv(env, c, h, PublishedBy(n))
  {
    var n' := PublishedBy(n);
    forall m | m in n.wire ensures MsgOk(env, c, h, n', m) {
      assert MsgOk(env, c, h, n, m);
    }
  }

  lemma ProduceKeeps(env: Env, c: Common, h: string, n: Node)
    requires NodeInv(env, c, h, n) && n.outbox.Some? && n.outPublished
    ensures NodeInv(env, c, h, n.(outbox := None))
  {
    var n' := n.(outbox := None);
    forall m | m in n.wire ensures MsgOk(env, c, h, n', m) {
      assert MsgOk(env, c, h, n, m);
    }
  }

  // ----- the rest -----

  lemma LossKeeps(env: Env, c: Common, h: string, n: Node, m: Msg)
    requires NodeInv(env, c, h, n) && n.outbox != Some(m)
    ensures NodeInv(env, c, h, n.(wire := n.wire - {m}))
  {
    Reframe(env, c, h, n, n.(wire := n.wire - {m}));
  }

  lemma FetchFailedKeeps(env: Env, c: Common, h: string, n: Node)
    requires NodeInv(env, c, h, n)
    ensures NodeInv(env, c, h, n.(agent := FetchFailed(n.agent)))
  {
    Reframe(env, c, h, n, n.(agent := FetchFailed(n.agent)));
  }

  lemma FetchedQuiet(env: Env, c: Common, hs: set<string>, n: Node, highWater: int, asOf: Time)
    requires env.Valid() && LogInv(env, c, hs) && QuietOk(env, c, n) && 0 <= highWater <= |c.log| && asOf <= c.now
    requires forall i :: highWater <= i < |c.log| ==> asOf <= c.log[i].timestamp
    ensures QuietOk(env, c, n.(agent := Fetched(n.agent, n.clock, highWater), fetchedAt := asOf))
  {
    if env.skew == 0 {
      SortedPrefix(c.log, n.agent.nextOffset);
      var a := Fetched(n.agent, n.clock, highWater);
      hide Elapsed;
      if !n.agent.connected {
        ElapsedAtOnce(env, QuietSince(a), n.clock, LastStamp(c.log[..n.agent.nextOffset]), c.now);
      }
    }
  }

  lemma FetchedKeeps(env: Env, c: Common, hs: set<string>, h: string, n: Node, highWater: int, asOf: Time)
    requires env.Valid() && LogInv(env, c, hs) && NodeInv(env, c, h, n) && 0 <= highWater <= |c.log| && asOf <= c.now
    requires forall i :: highWater <= i < |c.log| ==> asOf <= c.log[i].timestamp
    ensures NodeInv(env, c, h, n.(agent := Fetched(n.agent, n.clock, highWater), fetchedAt := asOf))
  {
    FetchedQuiet(env, c, hs, n, highWater, asOf);
    hide QuietOk;
    Reframe(env, c, h, n, n.(agent := Fetched(n.agent, n.clock, highWater), fetchedAt := asOf));
  }

  lemma JoinedStarts(env: Env, c: Common, hs: set<string>, h: string, start: int, end: int, clock: Time)
    requires env.Valid() && env.Readable() && LogInv(env, c, hs) && h !in hs && h != ""
    requires 0 <= start <= end <= |c.log| && ZERO_TIME < clock
    requires (env.Perfect() ==> clock == c.now) && (env.wholeLog ==> start == 0)
    ensures NodeInv(env, c, h, Joined(env, h, start, end, clock))
  {
    var n := Joined(env, h, start, end, clock);
    assert c.log[..0] == [];
    if env.skew == 0 {
      PrefixIsReadable(env.ttl, c.log, start);
      SortedPrefix(c.log, start);
      ElapsedAtOnce(env, clock, clock, LastStamp(c.log[..start]), c.now);
      var b := NextStamp(c, start);
      if start < |c.log| {
        SortedPair(c.log, start, start);
      }
      if start == 0 {
        SoundFromStart(env.ttl, b);
      } else {
        SoundNew(env.ttl, c.log[..start], b);
      }
      forall i | end <= i < |c.log| ensures n.fetchedAt <= c.log[i].timestamp {
        SortedPair(c.log, i, i);
      }
    }
  }
}
