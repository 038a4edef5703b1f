/**
 The steps that add to the log: every invariant survives a record landing, on time or late,
 and a message that does not decode.
 */
module Landings {
  import opened Records
  import opened LeaseFold
  import opened Agents
  import opened Systems
  import opened LateReaders
  import opened Invariants

  function Grown(c: Common, r: Record, sent: Sent): Common {
    Common(c.now, c.log + [r], c.sends + [sent])
  }

  /** r can be the broker's next record. */
  ghost predicate Next(env: Env, c: Common, r: Record) {
    && r.offset == |c.log|
    && c.now - env.skew <= r.timestamp <= c.now + env.skew
  }

  lemma HonestGrows(ttl: Duration, log: seq<Record>, r: Record)
    requires Honest(ttl, log) && Backs(ttl, log, r)
    ensures Honest(ttl, log + [r])
  {
    PrefixesOfAppend(log, r);
    forall n | 0 <= n < |log + [r]| ensures Backs(ttl, (log + [r])[..n], (log + [r])[n]) {
      if n < |log| {
        assert Backs(ttl, log[..n], log[n]);
      }
    }
  }

  lemma StampsGrow(env: Env, c: Common, r: Record, sent: Sent)
    requires StampsFollowSends(env, c) && Next(env, c, r)
    requires r.kind != Unknown ==> sent.at <= c.now
    ensures StampsFollowSends(env, Grown(c, r, sent))
  {
    var log := c.log + [r];
    PrefixesOfAppend(c.log, r);
    TruthOfAppend(env.ttl, c.log, r);
    assert log[..|c.log| + 1] == log;
  }

  lemma LogInvGrows(env: Env, c: Common, hs: set<string>, r: Record, sent: Sent)
    requires env.Valid() && LogInv(env, c, hs) && Next(env, c, r) && (env.soloRelease ==> Backs(env.ttl, c.log, r))
    requires r.kind != Unknown ==> r.holder in hs && r.ttl == env.wireTtl && sent.at <= c.now
    ensures LogInv(env, Grown(c, r, sent), hs)
  {
    if env.soloRelease {
      HonestGrows(env.ttl, c.log, r);
    }
    StampsGrow(env, c, r, sent);
    TruthOfAppend(env.ttl, c.log, r);
    assert (c.log + [r])[..|c.log|] == c.log;
  }

  // ----- what a longer log means to any node -----

  lemma ViewOkGrows(env: Env, c: Common, n: Node, r: Record, sent: Sent)
    requires ViewOk(env, c, n) && Next(env, c, r)
    ensures ViewOk(env, Grown(c, r, sent), n)
  {
    PrefixesOfAppend(c.log, r);
    assert NextStamp(Grown(c, r, sent), n.agent.nextOffset) == NextStamp(c, n.agent.nextOffset)
        || env.skew != 0;
  }

  lemma OutcomesOkGrows(env: Env, c: Common, n: Node, r: Record, sent: Sent)
    requires OutcomesOk(env, c, n)
    ensures OutcomesOk(env, Grown(c, r, sent), n)
  {
    VerdictStands(env.ttl, c.log, r);
  }

  lemma BackedGrows(env: Env, c: Common, h: string, clock: Time, deadline: Time, epoch: int, k: int, r: Record, sent: Sent)
    requires Backed(env, c, h, clock, deadline, epoch, k) && |c.log| == |c.sends|
    ensures Backed(env, Grown(c, r, sent), h, clock, deadline, epoch, k)
  {
    VerdictStands(env.ttl, c.log, r);
  }

  lemma QuietOkGrows(env: Env, c: Common, n: Node, r: Record, sent: Sent)
    requires QuietOk(env, c, n) && Next(env, c, r)
    ensures QuietOk(env, Grown(c, r, sent), n)
  {
    PrefixesOfAppend(c.log, r);
  }

  lemma BacksGrows(ttl: Duration, log: seq<Record>, r: Record, x: Record)
    requires Backs(ttl, log, x)
    requires r.kind == Unknown || x.Term() != r.Term()
    ensures Backs(ttl, log + [r], x)
  {
    VerdictStands(ttl, log, r);
  }

  /** Somebody else's record, or one that does not decode. */
  lemma OthersLand(env: Env, c: Common, h: string, n: Node, r: Record, sent: Sent)
    requires NodeInv(env, c, h, n) && Next(env, c, r) && |c.log| == |c.sends|
    requires r.kind == Unknown || r.holder != h
    ensures NodeInv(env, Grown(c, r, sent), h, n)
  {
    ViewOkGrows(env, c, n, r, sent);
    OutcomesOkGrows(env, c, n, r, sent);
    BackedGrows(env, c, h, n.clock, n.agent.deadline, n.agent.epoch, n.backing, r, sent);
    BackedGrows(env, c, h, n.clock, n.published.deadline, n.published.epoch, n.published.backing, r, sent);
    QuietOkGrows(env, c, n, r, sent);
    forall m | m in n.wire ensures MsgOk(env, Grown(c, r, sent), h, n, m) {
      assert MsgOk(env, c, h, n, m);
      if m.rec.kind != Claim && env.soloRelease {
        BacksGrows(env.ttl, c.log, r, m.rec);
      }
    }
  }

  // ----- a node's own record -----

  lemma OwnLogGrows(env: Env, c: Common, h: string, n: Node, m: Msg, stamp: Time)
    requires ViewOk(env, c, n) && OwnLogOk(c, h, n) && MsgOk(env, c, h, n, m) && n.outbox != Some(m)
    ensures OwnLogOk(Grown(c, Stamped(env, m.rec, |c.log|, stamp), m.sent), h, LandedBy(n, m, |c.log|))
  {
  }

  lemma FlightLands(env: Env, c: Common, h: string, n: Node, m: Msg, stamp: Time)
    requires ViewOk(env, c, n) && FlightOk(env, c, h, n) && |c.log| == |c.sends|
    ensures FlightOk(env, Grown(c, Stamped(env, m.rec, |c.log|, stamp), m.sent), h, LandedBy(n, m, |c.log|))
  {
  }

  lemma WireShrinks(env: Env, c: Common, h: string, n: Node, m: Msg, stamp: Time)
    requires ViewOk(env, c, n) && WireOk(env, c, h, n) && m in n.wire && n.outbox != Some(m)
    ensures WireOk(env, Grown(c, Stamped(env, m.rec, |c.log|, stamp), m.sent), h, LandedBy(n, m, |c.log|))
  {
    var r := Stamped(env, m.rec, |c.log|, stamp);
    var n' := LandedBy(n, m, |c.log|);
    forall x | x in n'.wire ensures MsgOk(env, Grown(c, r, m.sent), h, n', x) {
      assert MsgOk(env, c, h, n, x) && MsgOk(env, c, h, n, m);
      if x.rec.kind != Claim && env.soloRelease {
        BacksGrows(env.ttl, c.log, r, x.rec);
      }
    }
  }

  lemma OwnLands(env: Env, c: Common, h: string, n: Node, m: Msg, stamp: Time)
    requires NodeInv(env, c, h, n) && m in n.wire && n.outbox != Some(m) && |c.log| == |c.sends|
    requires Next(env, c, Stamped(env, m.rec, |c.log|, stamp))
    ensures NodeInv(env, Grown(c, Stamped(env, m.rec, |c.log|, stamp), m.sent), h, LandedBy(n, m, |c.log|))
  {
    var r := Stamped(env, m.rec, |c.log|, stamp);
    assert MsgOk(env, c, h, n, m);
    ViewOkGrows(env, c, n, r, m.sent);
    OutcomesOkGrows(env, c, n, r, m.sent);
    BackedGrows(env, c, h, n.clock, n.agent.deadline, n.agent.epoch, n.backing, r, m.sent);
    BackedGrows(env, c, h, n.clock, n.published.deadline, n.published.epoch, n.published.backing, r, m.sent);
    QuietOkGrows(env, c, n, r, m.sent);
    OwnLogGrows(env, c, h, n, m, stamp);
    FlightLands(env, c, h, n, m, stamp);
    WireShrinks(env, c, h, n, m, stamp);
  }

  // ----- the steps -----

  lemma OwnLandingKeepsLog(env: Env, c: Common, hs: set<string>, h: string, n: Node, m: Msg, stamp: Time)
    requires env.Valid() && LogInv(env, c, hs) && MsgOk(env, c, h, n, m) && h in hs
    requires Next(env, c, Stamped(env, m.rec, |c.log|, stamp))
    ensures LogInv(env, Grown(c, Stamped(env, m.rec, |c.log|, stamp), m.sent), hs)
  {
    var r := Stamped(env, m.rec, |c.log|, stamp);
    assert r.kind != Claim ==> r.Term() == m.rec.Term();
    assert env.soloRelease ==> Backs(env.ttl, c.log, r);
    LogInvGrows(env, c, hs, r, m.sent);
  }

  lemma LandsKeepsInv(env: Env, s: Sys, h: string, m: Msg, stamp: Time)
    requires Inv(env, s) && Enabled(env, s, Lands(h, m, stamp))
    ensures Inv(env, After(env, s, Lands(h, m, stamp)))
  {
    var c, s' := CommonOf(s), After(env, s, Lands(h, m, stamp));
    var r := Stamped(env, m.rec, |c.log|, stamp);
    assert s'.nodes.Keys == s.nodes.Keys && CommonOf(s') == Grown(c, r, m.sent);
    assert NodeInv(env, c, h, s.nodes[h]);
    assert LogInv(env, CommonOf(s'), s'.nodes.Keys) by {
      assert MsgOk(env, c, h, s.nodes[h], m);
      OwnLandingKeepsLog(env, c, s.nodes.Keys, h, s.nodes[h], m, stamp);
    }
    forall x | x in s'.nodes ensures NodeInv(env, CommonOf(s'), x, s'.nodes[x]) {
      if x == h {
        OwnLands(env, c, h, s.nodes[h], m, stamp);
      } else {
        assert NodeInv(env, c, x, s.nodes[x]);
        assert r.holder == h by {
          assert MsgOk(env, c, h, s.nodes[h], m);
        }
        OthersLand(env, c, x, s.nodes[x], r, m.sent);
      }
    }
  }

  lemma JunkKeepsInv(env: Env, s: Sys, stamp: Time)
    requires Inv(env, s) && Enabled(env, s, JunkLands(stamp))
    ensures Inv(env, After(env, s, JunkLands(stamp)))
  {
    var c, s' := CommonOf(s), After(env, s, JunkLands(stamp));
    var r, sent := Junk(|c.log|, stamp), Sent(s.now, ZERO_TIME);
    LogInvGrows(env, c, s.nodes.Keys, r, sent);
    assert CommonOf(s') == Grown(c, r, sent);
    forall x | x in s'.nodes ensures NodeInv(env, CommonOf(s'), x, s'.nodes[x]) {
      assert NodeInv(env, c, x, s.nodes[x]);
      OthersLand(env, c, x, s.nodes[x], r, sent);
    }
  }
}
