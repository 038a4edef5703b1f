/**
 Terms on the broker's clock, for an arbitrary log: records of participants that follow no
 rule at all, any TTLs, timestamps stepping backwards. The fold alone keeps the accepted terms
 apart and never brings one back.
 */
module Terms {
  import opened Records
  import opened LeaseFold

  /** Decoding refuses an empty holder. */
  ghost predicate Named(log: seq<Record>) {
    forall i :: 0 <= i < |log| && log[i].kind != Unknown ==> log[i].holder != ""
  }

  ghost predicate Opens(ttl: Duration, log: seq<Record>, e: int) {
    0 <= e < |log| && log[e].kind == Claim && Verdict(ttl, log, e) == Accepted
  }

  ghost function TermStart(ttl: Duration, log: seq<Record>, e: int): Time
    requires 0 <= e < |log|
  {
    TruthOf(ttl, log[..e + 1]).clock
  }

  /** The last expiry the log gave the term that record e opened. */
  ghost function TermEnd(ttl: Duration, log: seq<Record>, e: int): Time
    requires 0 <= e < |log|
    decreases |log|
  {
    if e == |log| - 1 || TruthOf(ttl, log).state.epoch == e then TruthOf(ttl, log).state.expires
    else TermEnd(ttl, log[..|log| - 1], e)
  }

  lemma {:induction false} FreeMeansPast(ttl: Duration, log: seq<Record>)
    requires Named(log)
    ensures var t := TruthOf(ttl, log); t.state.holder == "" ==> t.state.expires <= t.clock
  {
    if log != [] {
      FreeMeansPast(ttl, log[..|log| - 1]);
    }
  }

  /** Where the term that record e opened stands in a log: its end bounds the start of
      whatever term came after it. */
  ghost predicate Placed(ttl: Duration, log: seq<Record>, e: int)
    requires 0 <= e < |log|
  {
    var s := TruthOf(ttl, log).state;
    && TermStart(ttl, log, e) <= TermEnd(ttl, log, e)
    && e <= s.epoch < |log|
    && (s.epoch == e ==> TermEnd(ttl, log, e) == s.expires)
    && (s.epoch > e ==> TermEnd(ttl, log, e) <= TermStart(ttl, log, s.epoch))
  }

  lemma TermEndOfAppend(ttl: Duration, log: seq<Record>, r: Record, e: int)
    requires 0 <= e < |log|
    ensures TermEnd(ttl, log + [r], e)
         == if TruthOf(ttl, log + [r]).state.epoch == e then TruthOf(ttl, log + [r]).state.expires else TermEnd(ttl, log, e)
    ensures TermStart(ttl, log + [r], e) == TermStart(ttl, log, e)
  {
    assert (log + [r])[..|log|] == log;
    assert (log + [r])[..e + 1] == log[..e + 1];
  }

  /** What one record can do to the term: nothing, open another one that nothing held up, or move
      the end of the live one. */
  lemma NextState(ttl: Duration, log: seq<Record>, r: Record)
    requires r.offset == |log|
    ensures var t, t' := TruthOf(ttl, log), TruthOf(ttl, log + [r]);
            t.clock <= t'.clock
            && (t'.state == t.state
                || (t'.state.epoch == |log| && t'.clock <= t'.state.expires && !t.state.HeldAt(t'.clock))
                || (t'.state.epoch == t.state.epoch && t'.clock <= t'.state.expires && t.state.HeldAt(t'.clock)))
  {
    TruthOfAppend(ttl, log, r);
  }

  lemma PlacedStep(ttl: Duration, log: seq<Record>, r: Record, e: int)
    requires Indexed(log) && Named(log) && r.offset == |log| && 0 <= e < |log| && Placed(ttl, log, e)
    ensures Placed(ttl, log + [r], e)
  {
    var s, s' := TruthOf(ttl, log).state, TruthOf(ttl, log + [r]).state;
    NextState(ttl, log, r);
    TermEndOfAppend(ttl, log, r, e);
    FreeMeansPast(ttl, log);
    ClockIsMonotone(ttl, log, e + 1);
    ClockIsMonotone(ttl, log, s.epoch + 1);
    hide TruthOf, Judge, Fold, TermEnd, Indexed, Named;
    if s'.epoch == s.epoch {
      TermEndOfAppend(ttl, log, r, s.epoch);
    } else {
      assert (log + [r])[..|log| + 1] == log + [r];
    }
  }

  lemma {:induction false} EndBoundsWhatFollows(ttl: Duration, log: seq<Record>, e: int)
    requires Indexed(log) && Named(log) && Opens(ttl, log, e)
    ensures Placed(ttl, log, e)
    decreases |log|
  {
    var n := |log| - 1;
    var init, r := log[..n], log[n];
    assert init + [r] == log;
    if e == n {
      assert log[..e + 1] == log;
      StateAfterAccepted(ttl, log, e);
    } else {
      assert log[..e] == init[..e];
      EndBoundsWhatFollows(ttl, init, e);
      PlacedStep(ttl, init, r, e);
    }
  }

  lemma {:induction false} EndIsStable(ttl: Duration, log: seq<Record>, e: int, n: int)
    requires Indexed(log) && Named(log) && 0 <= n <= |log| && Opens(ttl, log[..n], e)
    requires TruthOf(ttl, log[..n]).state.epoch != e
    ensures TermEnd(ttl, log, e) == TermEnd(ttl, log[..n], e)
    decreases |log|
  {
    if n == |log| {
      assert log[..n] == log;
    } else {
      var init := log[..|log| - 1];
      assert init[..n] == log[..n];
      EndIsStable(ttl, init, e, n);
      assert log[..n][..e] == log[..e];
      EndBoundsWhatFollows(ttl, log[..n], e);
      EpochsGrow(ttl, log, n);
    }
  }

  /** The accepted terms of any log are pairwise disjoint intervals of broker time, in the
      order of their epochs. */
  lemma TermsAreDisjoint(ttl: Duration, log: seq<Record>, i: int, j: int)
    requires Indexed(log) && Named(log)
    requires Opens(ttl, log, i) && Opens(ttl, log, j) && i < j
    ensures TermStart(ttl, log, i) <= TermEnd(ttl, log, i) <= TermStart(ttl, log, j) <= TermEnd(ttl, log, j)
  {
    var before := log[..j + 1];
    assert before[..i] == log[..i] && before[..j] == log[..j];
    assert before[..i + 1] == log[..i + 1] && before[..j + 1] == log[..j + 1];
    StateAfterAccepted(ttl, log, j);
    EndBoundsWhatFollows(ttl, before, i);
    EndIsStable(ttl, log, i, j + 1);
    EndBoundsWhatFollows(ttl, log, j);
  }

  /** The term e is over: superseded, released or run out. */
  ghost predicate Over(t: Truth, e: int) {
    t.state.epoch > e || (t.state.epoch == e && !t.state.HeldAt(t.clock))
  }

  /** A term once over stays over, and every later renew or release of it is rejected, no
      matter who writes it and when. */
  lemma {:induction false} NoRevival(ttl: Duration, log: seq<Record>, e: int, k: int, j: int)
    requires Indexed(log) && 0 <= e < k <= j < |log|
    requires Over(TruthOf(ttl, log[..k]), e)
    ensures Over(TruthOf(ttl, log[..j]), e)
    ensures log[j].kind in {Renew, Release} && log[j].epoch == e ==> Verdict(ttl, log, j) == Rejected
    decreases j
  {
    if j > k {
      NoRevival(ttl, log, e, k, j - 1);
      TruthOfNext(ttl, log, j - 1);
    }
  }
}
