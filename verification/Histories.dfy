/**
 The fold without its state (docs/protocol.md, "Fold"): whether a record counts follows from the records that
 counted before it. The lease is held exactly while the last record that counted is a claim or a renew
 that has not run out, a claim counts exactly while the lease is not held, and a renew or a release exactly
 while it is held by the term it names.
 */
module Histories {
  import opened Records
  import opened LeaseFold
  import opened Terms

  /** The latest timestamp there was, of the messages that decode. */
  function MaxStamp(log: seq<Record>): Time {
    if log == [] then ZERO_TIME
    else
      var n := |log| - 1;
      if log[n].kind == Unknown then MaxStamp(log[..n]) else Max(MaxStamp(log[..n]), log[n].timestamp)
  }

  /** The offset of the last record that counted, or -1. */
  ghost function LastAccepted(ttl: Duration, log: seq<Record>): (j: int)
    ensures -1 <= j < |log|
  {
    if log == [] then -1
    else
      var n := |log| - 1;
      if Verdict(ttl, log, n) == Accepted then n else LastAccepted(ttl, log[..n])
  }

  lemma {:induction false} LastAcceptedIsLast(ttl: Duration, log: seq<Record>, i: int)
    requires LastAccepted(ttl, log) <= i < |log|
    ensures 0 <= i ==> (Verdict(ttl, log, i) == Accepted <==> i == LastAccepted(ttl, log))
    decreases |log|
  {
    var n := |log| - 1;
    if 0 <= i < n {
      LastAcceptedIsLast(ttl, log[..n], i);
      assert log[..n][..i] == log[..i];
    }
  }

  /** Did the last record that counted leave the lease with somebody? */
  ghost predicate Taken(ttl: Duration, log: seq<Record>) {
    var j := LastAccepted(ttl, log);
    0 <= j && (log[j].kind == Claim || log[j].kind == Renew)
  }

  /** With whom: a claim opens the term of its own offset, a renew names one. */
  ghost function TakenBy(ttl: Duration, log: seq<Record>): (string, int)
    requires Taken(ttl, log)
  {
    var j := LastAccepted(ttl, log);
    (log[j].holder, if log[j].kind == Claim then j else log[j].epoch)
  }

  /** And until when. */
  ghost function TakenUntil(ttl: Duration, log: seq<Record>): Time
    requires Taken(ttl, log)
  {
    var j := LastAccepted(ttl, log);
    MaxStamp(log[..j + 1]) + log[j].ttl
  }

  /** Is the lease held at time t? */
  ghost predicate LiveAt(ttl: Duration, log: seq<Record>, t: Time) {
    Taken(ttl, log) && t < TakenUntil(ttl, log)
  }

  lemma {:induction false} ClockIsMaxStamp(ttl: Duration, log: seq<Record>)
    ensures TruthOf(ttl, log).clock == MaxStamp(log)
  {
    if log != [] {
      ClockIsMaxStamp(ttl, log[..|log| - 1]);
    }
  }

  /** The fold's state, from the last record that counted: whose the lease is and until when, or whose it was when
      it was released, or nobody's yet. */
  ghost function StateTold(ttl: Duration, log: seq<Record>): State {
    var j := LastAccepted(ttl, log);
    if j == -1 then State("", -1, ZERO_TIME)
    else if Taken(ttl, log) then State(TakenBy(ttl, log).0, TakenBy(ttl, log).1, TakenUntil(ttl, log))
    else State("", log[j].epoch, MaxStamp(log[..j + 1]))
  }

  ghost predicate Told(ttl: Duration, log: seq<Record>) {
    TruthOf(ttl, log).state == StateTold(ttl, log) && (Taken(ttl, log) ==> TakenBy(ttl, log).0 != "")
  }

  lemma LastOfAppend(ttl: Duration, log: seq<Record>, r: Record)
    ensures LastAccepted(ttl, log + [r]) == if Judge(ttl, TruthOf(ttl, log), r).1 == Accepted then |log| else LastAccepted(ttl, log)
  {
    assert (log + [r])[..|log|] == log;
  }

  lemma RejectedTells(ttl: Duration, log: seq<Record>, r: Record)
    requires Told(ttl, log) && Judge(ttl, TruthOf(ttl, log), r).1 != Accepted
    ensures Told(ttl, log + [r])
  {
    var j := LastAccepted(ttl, log);
    LastOfAppend(ttl, log, r);
    TruthOfAppend(ttl, log, r);
    assert TruthOf(ttl, log + [r]).state == TruthOf(ttl, log).state;
    assert 0 <= j ==> (log + [r])[..j + 1] == log[..j + 1] && (log + [r])[j] == log[j];
  }

  lemma AcceptedTells(ttl: Duration, log: seq<Record>, r: Record)
    requires r.offset == |log| && r.holder != "" && Judge(ttl, TruthOf(ttl, log), r).1 == Accepted
    ensures Told(ttl, log + [r])
  {
    LastOfAppend(ttl, log, r);
    TruthOfAppend(ttl, log, r);
    ClockIsMaxStamp(ttl, log + [r]);
    assert (log + [r])[..|log| + 1] == log + [r];
  }

  lemma JunkIsRejected(ttl: Duration, log: seq<Record>, r: Record)
    ensures r.kind == Unknown ==> Judge(ttl, TruthOf(ttl, log), r).1 == Rejected
  {
  }

  /** The state of the fold and its clock are what the history says, for any records and timestamps. */
  lemma {:induction false} StateIsHistory(ttl: Duration, log: seq<Record>)
    requires Indexed(log) && Named(log)
    ensures TruthOf(ttl, log).state == StateTold(ttl, log) && TruthOf(ttl, log).clock == MaxStamp(log)
    ensures Told(ttl, log)
  {
    ClockIsMaxStamp(ttl, log);
    if log != [] {
      var n := |log| - 1;
      var init, r := log[..n], log[n];
      hide Told, Judge;
      assert init + [r] == log;
      StateIsHistory(ttl, init);
      if Judge(ttl, TruthOf(ttl, init), r).1 == Accepted {
        assert r.kind != Unknown by { JunkIsRejected(ttl, init, r); }
        AcceptedTells(ttl, init, r);
      } else {
        RejectedTells(ttl, init, r);
      }
    }
  }

  /** The fold's verdicts, with no state: exactly when a record counts. */
  lemma VerdictIsHistory(ttl: Duration, log: seq<Record>, i: int)
    requires Indexed(log) && Named(log) && 0 <= i < |log|
    ensures var before, r, now := log[..i], log[i], MaxStamp(log[..i + 1]);
            var live := LiveAt(ttl, before, now);
            Verdict(ttl, log, i) == Accepted <==>
              match r.kind
              case Claim => 0 < r.ttl <= ttl && !live
              case Renew => 0 < r.ttl <= ttl && live && TakenBy(ttl, before) == (r.holder, r.epoch)
              case Release => live && TakenBy(ttl, before) == (r.holder, r.epoch)
              case Unknown => false
    ensures Verdict(ttl, log, i) != Pending
  {
    StateIsHistory(ttl, log[..i]);
    ClockIsMaxStamp(ttl, log[..i]);
    assert log[..i + 1][..i] == log[..i];
    hide TruthOf, TakenBy, TakenUntil;
  }

  // ----- what a release does -----

  /** The term r names is held when r lands. */
  ghost predicate NamesLiveTerm(ttl: Duration, log: seq<Record>, r: Record) {
    var s := TruthOf(ttl, log).state;
    s.HeldAt(Max(TruthOf(ttl, log).clock, r.timestamp)) && s.holder == r.holder && s.epoch == r.epoch
  }

  /** A release of the live term counts, frees the lease for good until somebody claims it, and lets the
      next valid claim in, whenever that lands. */
  lemma ReleaseFrees(ttl: Duration, log: seq<Record>, r: Record, next: Record)
    requires r.kind == Release && NamesLiveTerm(ttl, log, r)
    requires next.kind == Claim && 0 < next.ttl <= ttl && next.offset == |log| + 1 && next.holder != ""
    ensures Verdict(ttl, log + [r], |log|) == Accepted
    ensures forall t :: !TruthOf(ttl, log + [r]).state.HeldAt(t)
    ensures var taken := TruthOf(ttl, log + [r, next]);
            Verdict(ttl, log + [r, next], |log| + 1) == Accepted
            && taken.state == State(next.holder, |log| + 1, taken.clock + next.ttl) && taken.state.HeldAt(taken.clock)
  {
    VerdictStands(ttl, log, r);
    TruthOfAppend(ttl, log, r);
    assert log + [r, next] == (log + [r]) + [next];
    VerdictStands(ttl, log + [r], next);
    TruthOfAppend(ttl, log + [r], next);
  }
}
