/**
 The invariant of the whole system. It is circular by nature: a belief is true because the
 views behind it are true, and a view that found an anchor is true because the belief of
 whoever wrote the anchor was. One induction over runs carries both.
 */
module Invariants {
  import opened Records
  import opened LeaseFold
  import opened Agents
  import opened Systems
  import opened LateReaders

  /** The part of the system state all nodes share. */
  datatype Common = Common(now: Time, log: seq<Record>, sends: seq<Sent>)

  function CommonOf(s: Sys): Common {
    Common(s.now, s.log, s.sends)
  }

  /** The sender's clock has advanced since the send by no less than the drift allows. */
  ghost predicate Drifts(env: Env, now: Time, clock: Time, sent: Sent) {
    && sent.at <= now && ZERO_TIME < sent.local <= clock
    && env.rateNum * (now - sent.at) <= env.rateDen * (clock - sent.local)
  }

  // ----- the log -----

  /** Records are stamped no earlier than they were sent, up to the skew. */
  ghost predicate StampsFollowSends(env: Env, c: Common) {
    |c.sends| == |c.log|
    && forall i {:trigger c.sends[i]} :: 0 <= i < |c.log| && c.log[i].kind != Unknown ==>
         c.sends[i].at - env.skew <= TruthOf(env.ttl, c.log[..i + 1]).clock
  }

  ghost predicate LogInv(env: Env, c: Common, holders: set<string>) {
    && ZERO_TIME < c.now
    && Indexed(c.log)
    && TruthOf(env.ttl, c.log).clock <= c.now + env.skew
    && (env.skew == 0 ==> Sorted(c.log) && LastStamp(c.log) <= c.now)
    && (env.soloRelease ==> Honest(env.ttl, c.log))
    && StampsFollowSends(env, c)
    && (forall i :: 0 <= i < |c.log| && c.log[i].kind != Unknown ==> c.log[i].holder in holders && c.log[i].ttl == env.wireTtl)
  }

  // ----- one node -----

  /** The earliest stamp a record from offset k on can carry. */
  ghost function NextStamp(c: Common, k: int): Time
    requires 0 <= k
  {
    if k < |c.log| then c.log[k].timestamp else c.now
  }

  /** The view agrees with the fold of everything before the read position. */
  ghost predicate ViewOk(env: Env, c: Common, n: Node) {
    var v, k := n.agent.view, n.agent.nextOffset;
    && 0 <= k <= |c.log| && ZERO_TIME < n.clock
    && -1 <= n.agent.epoch < k
    && (env.Perfect() ==> n.clock == c.now)
    && (if env.wholeLog then v.ttl == env.ttl && v.certain && v.lastOffset < k && Truth(v.state, v.clock) == TruthOf(env.ttl, c.log[..k])
        else env.skew == 0 && env.soloRelease && Sound(env.ttl, c.log[..k], NextStamp(c, k), n.gap, v))
  }

  /** Remembered verdicts on own records are verdicts of the log. */
  ghost predicate OutcomesOk(env: Env, c: Common, n: Node) {
    forall o :: o in n.agent.ownOutcomes ==>
      0 <= o < n.agent.nextOffset && o < |c.log|
      && (n.agent.ownOutcomes[o] == Pending || n.agent.ownOutcomes[o] == Verdict(env.ttl, c.log, o))
  }

  /** A nonzero deadline counts from the send of one record of the term, which the log accepted. */
  ghost predicate Backed(env: Env, c: Common, h: string, clock: Time, deadline: Time, epoch: int, k: int) {
    deadline != ZERO_TIME ==>
      && 0 <= k < |c.log| && k < |c.sends|
      && c.log[k].Asserts() && c.log[k].Term() == (h, epoch) && Verdict(env.ttl, c.log, k) == Accepted
      && deadline == c.sends[k].local + (env.ttl - env.margin)
      && Drifts(env, c.now, clock, c.sends[k])
  }

  ghost predicate Unbelieved(n: Node, e: int) {
    (n.agent.epoch == e ==> n.agent.deadline == ZERO_TIME)
    && (n.published.epoch == e ==> n.published.deadline == ZERO_TIME)
  }

  /** What the log may hold from h. */
  ghost predicate OwnLogOk(c: Common, h: string, n: Node) {
    forall i :: 0 <= i < |c.log| && c.log[i].holder == h && c.log[i].kind in {Renew, Release} ==>
      && 0 <= c.log[i].epoch <= n.agent.epoch && c.log[i].epoch < i
      && (c.log[i].kind == Release ==> Unbelieved(n, c.log[i].epoch))
  }

  /** The in-flight record and what became of it. */
  ghost predicate FlightOk(env: Env, c: Common, h: string, n: Node) {
    && (n.agent.inflight.None? <==> n.flight == NoFlight)
    && (n.flight != NoFlight ==>
          var f, m := n.agent.inflight.value, n.flight.m;
          && f.kind == m.rec.kind && m.rec.kind in {Claim, Renew} && m.rec.holder == h
          && f.sentAt == m.sent.local && Drifts(env, c.now, n.clock, m.sent)
          && (m.rec.kind == Claim ==> n.agent.deadline == ZERO_TIME)
          && (m.rec.kind == Renew ==> m.rec.epoch == n.agent.epoch && n.agent.deadline <= m.sent.local + (env.ttl - env.margin)))
    && (n.flight.Flying? ==> n.agent.inflight.value.offset == -1)
    && (n.flight.Landed? ==>
          var k := n.flight.at;
          && n.agent.inflight.value.offset in {-1, k}
          && 0 <= k && n.agent.epoch < k < |c.log| && k < |c.sends|
          && c.log[k] == Stamped(env, n.flight.m.rec, k, c.log[k].timestamp) && c.sends[k] == n.flight.m.sent)
  }

  /** A message that may still land: whatever of its term is in the log was accepted, and if
      it was given up on, the belief it could have extended has run out. */
  ghost predicate MsgOk(env: Env, c: Common, h: string, n: Node, m: Msg) {
    && m.rec.holder == h && m.rec.kind in {Claim, Renew, Release}
    && m.sent.at <= c.now && ZERO_TIME < m.sent.local
    && (m.rec.kind != Claim ==> 0 <= m.rec.epoch <= n.agent.epoch && (env.soloRelease ==> Backs(env.ttl, c.log, m.rec)))
    && (m.rec.kind == Renew ==>
          && (n.agent.epoch == m.rec.epoch ==> n.agent.deadline <= m.sent.local + env.ttl)
          && (n.flight == Flying(m) || m.sent.local + env.ttl <= n.clock))
    && (m.rec.kind == Release ==>
          && (n.agent.epoch == m.rec.epoch ==> n.agent.deadline == ZERO_TIME)
          && (n.outbox != Some(m) ==> Unbelieved(n, m.rec.epoch)))
  }

  /** At most one message of a term is ever under way. */
  ghost predicate OneATerm(wire: set<Msg>) {
    forall m, m' :: m in wire && m' in wire && m.rec.kind != Claim && m'.rec.kind != Claim && m.rec.epoch == m'.rec.epoch ==> m == m'
  }

  ghost predicate WireOk(env: Env, c: Common, h: string, n: Node) {
    && (forall m :: m in n.wire ==> MsgOk(env, c, h, n, m))
    && (env.soloRelease ==> OneATerm(n.wire))
    && (n.outbox.Some? ==>
          var m := n.outbox.value;
          m in n.wire && m.rec.kind == Release && m.rec.epoch == n.agent.epoch && n.agent.deadline == ZERO_TIME
          && (env.soloRelease ==> n.agent.inflight.None?) && (n.outPublished ==> Unbelieved(n, m.rec.epoch)))
  }

  /** From `since` to `clock` on the node's clock, no more time passed than the fastest clock shows
      from `at` to `now`. */
  ghost predicate Elapsed(env: Env, since: Time, clock: Time, at: Time, now: Time) {
    env.rateDen * (clock - since) <= (2 * env.rateDen - env.rateNum) * (now - at)
  }

  /** Silence as this node measures it, with brokers that agree on the time. */
  ghost predicate QuietOk(env: Env, c: Common, n: Node) {
    env.skew == 0 ==>
      && 0 <= n.agent.nextOffset <= |c.log|
      && Elapsed(env, QuietSince(n.agent), n.clock, LastStamp(c.log[..n.agent.nextOffset]), c.now)
      && (env.Perfect() ==> n.agent.lastRecordBroker <= n.agent.lastRecordAt <= n.clock)
      && ZERO_TIME <= n.agent.highWater && n.fetchedAt <= c.now
      && (forall i :: n.agent.highWater <= i < |c.log| ==> n.fetchedAt <= c.log[i].timestamp)
  }

  ghost predicate NodeInv(env: Env, c: Common, h: string, n: Node) {
    && h != ""
    && ViewOk(env, c, n)
    && OutcomesOk(env, c, n)
    && Backed(env, c, h, n.clock, n.agent.deadline, n.agent.epoch, n.backing)
    && Backed(env, c, h, n.clock, n.published.deadline, n.published.epoch, n.published.backing)
    && OwnLogOk(c, h, n)
    && FlightOk(env, c, h, n)
    && WireOk(env, c, h, n)
    && QuietOk(env, c, n)
  }

  ghost predicate Inv(env: Env, s: Sys) {
    && env.Valid() && env.MarginCovers() && env.Readable()
    && LogInv(env, CommonOf(s), s.nodes.Keys)
    && forall h :: h in s.nodes ==> NodeInv(env, CommonOf(s), h, s.nodes[h])
  }

  // ----- a belief is the truth -----

  lemma Scale(k: int, x: int, y: int)
    requires 0 < k
    ensures k * x < k * y <==> x < y
    ensures k * (y - x) == k * y - k * x
  {
  }

  /** n/d is the slowest clock, t the TTL, g the margin, a what it must leave room for. */
  lemma SlowClock(n: int, d: int, x: int, y: int, t: int, g: int, a: int)
    requires 0 < n <= d
    requires n * x <= d * y && y < t - g
    requires d * (t - g) <= n * (t - a)
    ensures x < t - a
  {
    Scale(d, y, t - g);
    Scale(n, x, t - a);
  }

  /** The arithmetic of the margin: within its deadline a belief leaves room for the skew of
      two brokers before the term its backing record opened can run out. */
  lemma MarginSuffices(env: Env, now: Time, clock: Time, sent: Sent)
    requires env.Valid() && env.MarginCovers() && Drifts(env, now, clock, sent)
    requires clock < sent.local + (env.ttl - env.margin)
    ensures now + env.skew < sent.at - env.skew + env.wireTtl
  {
    SlowClock(env.rateNum, env.rateDen, now - sent.at, clock - sent.local, env.ttl, env.margin,
              env.Slack());
  }

  /** If a deadline is backed and not yet past, and no release of its term is in the log, the
      fold of the whole log, read or unread, has that term live for every stamp the next record can carry. */
  lemma BackedIsTrue(env: Env, c: Common, hs: set<string>, h: string, clock: Time, deadline: Time, epoch: int, k: int)
    requires env.Valid() && env.MarginCovers() && LogInv(env, c, hs) && h != ""
    requires Backed(env, c, h, clock, deadline, epoch, k) && ZERO_TIME <= clock < deadline
    requires NoRelease(c.log, k + 1, h, epoch)
    ensures var s := TruthOf(env.ttl, c.log).state;
            s.holder == h && s.epoch == epoch
            && c.now + env.skew < c.sends[k].at - env.skew + env.wireTtl <= s.expires
  {
    MarginSuffices(env, c.now, clock, c.sends[k]);
    var x := TruthOf(env.ttl, c.log[..k + 1]).clock + env.wireTtl;
    forall j | k < j < |c.log| && c.log[j].kind == Renew
      ensures x <= TruthOf(env.ttl, c.log[..j + 1]).clock + c.log[j].ttl
    {
      ClockIsMonotone(env.ttl, c.log[..j + 1], k + 1);
      assert c.log[..j + 1][..k + 1] == c.log[..k + 1];
    }
    TermPersists(env.ttl, c.log, k, x);
  }

  lemma OwnTermUnreleased(env: Env, c: Common, h: string, n: Node, k: int, epoch: int)
    requires OwnLogOk(c, h, n) && !Unbelieved(n, epoch)
    ensures NoRelease(c.log, k, h, epoch)
  {
  }

  /** A believer is the holder. */
  lemma BelieverHolds(env: Env, c: Common, hs: set<string>, h: string, n: Node)
    requires env.Valid() && env.MarginCovers() && LogInv(env, c, hs) && NodeInv(env, c, h, n)
    requires Believing(n.agent, n.clock)
    ensures var s := TruthOf(env.ttl, c.log).state;
            s.holder == h && s.epoch == n.agent.epoch && c.now + env.skew < s.expires
            && c.sends[n.backing].at - env.skew + env.wireTtl <= s.expires
            && s.HeldAt(TruthOf(env.ttl, c.log).clock)
  {
    OwnTermUnreleased(env, c, h, n, n.backing + 1, n.agent.epoch);
    BackedIsTrue(env, c, hs, h, n.clock, n.agent.deadline, n.agent.epoch, n.backing);
  }

  /** Whoever Status reports as holding is the holder, stalled loop or not. */
  lemma ReporterHolds(env: Env, c: Common, hs: set<string>, h: string, n: Node)
    requires env.Valid() && env.MarginCovers() && LogInv(env, c, hs) && NodeInv(env, c, h, n)
    requires n.clock < n.published.deadline
    ensures var s := TruthOf(env.ttl, c.log).state;
            s.holder == h && s.epoch == n.published.epoch && c.now + env.skew < s.expires
            && c.sends[n.published.backing].at - env.skew + env.wireTtl <= s.expires
  {
    OwnTermUnreleased(env, c, h, n, n.published.backing + 1, n.published.epoch);
    BackedIsTrue(env, c, hs, h, n.clock, n.published.deadline, n.published.epoch, n.published.backing);
  }
}
