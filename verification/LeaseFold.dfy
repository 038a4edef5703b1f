/**
 The state of a lease as a deterministic fold over its log (lease/view.go, docs/protocol.md).

 `TruthOf` is the reference: a plain recursive fold of the whole log from offset 0. Every
 claim about a participant elsewhere in this project is a claim about its relation to this
 function. Timestamps may step backwards; the fold clamps them to be monotone.
 */
module LeaseFold {
  import opened Records

  datatype State = State(holder: string, epoch: int, expires: Time) {
    predicate HeldAt(t: Time) {
      holder != "" && t < expires
    }
  }

  datatype Outcome = Pending | Accepted | Rejected

  predicate ValidTtl(ttl: Duration, r: Record) {
    r.kind == Release || (0 < r.ttl && r.ttl <= ttl)
  }

  /** One record applied to a known state. */
  function Fold(ttl: Duration, s: State, r: Record): (State, Outcome) {
    if !ValidTtl(ttl, r) then (s, Rejected)
    else
      var held := s.HeldAt(r.timestamp);
      match r.kind
      case Claim =>
        if held then (s, Rejected)
        else (State(r.holder, r.offset, r.timestamp + r.ttl), Accepted)
      case Renew =>
        if !held || s.holder != r.holder || s.epoch != r.epoch then (s, Rejected)
        else (s.(expires := r.timestamp + r.ttl), Accepted)
      case Release =>
        if !held || s.holder != r.holder || s.epoch != r.epoch then (s, Rejected)
        else (s.(holder := "", expires := r.timestamp), Accepted)
      case Unknown => (s, Accepted)
  }

  /** The state together with the broker's clock, forced to be monotone. */
  datatype Truth = Truth(state: State, clock: Time)

  const NOTHING := Truth(State("", -1, ZERO_TIME), ZERO_TIME)

  function Clamp(clock: Time, r: Record): Record {
    if r.timestamp < clock then r.(timestamp := clock) else r
  }

  /** A message that does not decode leaves the state and the clock alone. */
  function Judge(ttl: Duration, t: Truth, r: Record): (Truth, Outcome) {
    if r.kind == Unknown then (t, Rejected)
    else
      var c := Clamp(t.clock, r);
      var (s, out) := Fold(ttl, t.state, c);
      (Truth(s, c.timestamp), out)
  }

  function TruthOf(ttl: Duration, log: seq<Record>): Truth {
    if log == [] then NOTHING
    else Judge(ttl, TruthOf(ttl, log[..|log| - 1]), log[|log| - 1]).0
  }

  /** What the whole log says about its own record at offset i. */
  function Verdict(ttl: Duration, log: seq<Record>, i: int): Outcome
    requires 0 <= i < |log|
  {
    Judge(ttl, TruthOf(ttl, log[..i]), log[i]).1
  }

  /** Offsets are log positions. */
  ghost predicate Indexed(log: seq<Record>) {
    forall i :: 0 <= i < |log| ==> log[i].offset == i
  }

  ghost function LastStamp(log: seq<Record>): Time {
    if log == [] then ZERO_TIME else log[|log| - 1].timestamp
  }

  /** Broker timestamps never step backwards. */
  ghost predicate Sorted(log: seq<Record>) {
    log == [] || (Sorted(log[..|log| - 1]) && LastStamp(log[..|log| - 1]) <= log[|log| - 1].timestamp)
  }

  lemma {:induction false} SortedPair(log: seq<Record>, i: int, j: int)
    requires Sorted(log) && 0 <= i <= j < |log|
    ensures ZERO_TIME <= log[i].timestamp <= log[j].timestamp <= LastStamp(log)
    decreases |log|
  {
    if j < |log| - 1 {
      SortedPair(log[..|log| - 1], i, j);
    } else if i < j {
      SortedPair(log[..|log| - 1], i, j - 1);
    } else if |log| > 1 {
      SortedPair(log[..|log| - 1], j - 1, j - 1);
    }
  }

  lemma {:induction false} SortedPrefix(log: seq<Record>, n: int)
    requires Sorted(log) && 0 <= n <= |log|
    ensures Sorted(log[..n]) && ZERO_TIME <= LastStamp(log[..n]) <= LastStamp(log)
    ensures n < |log| ==> LastStamp(log[..n]) <= log[n].timestamp
    decreases |log|
  {
    if n == |log| {
      assert log[..n] == log;
    } else {
      SortedPrefix(log[..|log| - 1], n);
      assert log[..|log| - 1][..n] == log[..n];
    }
    if |log| > 0 {
      SortedPair(log, 0, |log| - 1);
    }
  }

  // ----- one more record -----

  lemma TruthOfNext(ttl: Duration, log: seq<Record>, i: int)
    requires 0 <= i < |log|
    ensures TruthOf(ttl, log[..i + 1]) == Judge(ttl, TruthOf(ttl, log[..i]), log[i]).0
  {
    assert log[..i + 1][..i] == log[..i];
  }

  lemma TruthOfAppend(ttl: Duration, log: seq<Record>, r: Record)
    ensures TruthOf(ttl, log + [r]) == Judge(ttl, TruthOf(ttl, log), r).0
  {
    assert (log + [r])[..|log|] == log;
  }

  lemma PrefixesOfAppend(log: seq<Record>, r: Record)
    ensures forall i :: 0 <= i <= |log| ==> (log + [r])[..i] == log[..i]
  {
  }

  /** A verdict once given stands: it depends on nothing that lands later. */
  lemma VerdictStands(ttl: Duration, log: seq<Record>, r: Record)
    ensures forall i {:trigger Verdict(ttl, log + [r], i)} {:trigger Verdict(ttl, log, i)} ::
              0 <= i < |log| ==> Verdict(ttl, log + [r], i) == Verdict(ttl, log, i)
    ensures Verdict(ttl, log + [r], |log|) == Judge(ttl, TruthOf(ttl, log), r).1
  {
    PrefixesOfAppend(log, r);
    assert (log + [r])[..|log|] == log;
  }

  // ----- what every reachable truth satisfies -----

  lemma {:induction false} ClockIsMonotone(ttl: Duration, log: seq<Record>, i: int)
    requires 0 <= i <= |log|
    ensures ZERO_TIME <= TruthOf(ttl, log[..i]).clock <= TruthOf(ttl, log).clock
    decreases |log|
  {
    if i == |log| {
      assert log[..i] == log;
      if |log| > 0 {
        ClockIsMonotone(ttl, log[..|log| - 1], 0);
        assert log[..|log| - 1][..0] == [];
      }
    } else {
      ClockIsMonotone(ttl, log[..|log| - 1], i);
      assert log[..|log| - 1][..i] == log[..i];
    }
  }

  /** A live term got a record within the last w, if no valid record asks for more, so silence for that
      long means the lease is free: the rule behind `silence` and `quiet`. */
  lemma {:induction false} TermsAreShort(ttl: Duration, log: seq<Record>, w: Duration)
    requires 0 <= w && forall r :: r in log && r.Asserts() && ValidTtl(ttl, r) ==> r.ttl <= w
    ensures var t := TruthOf(ttl, log); t.state.expires <= t.clock + w
  {
    if log != [] {
      TermsAreShort(ttl, log[..|log| - 1], w);
    }
  }

  /** With nondecreasing timestamps nothing is ever clamped. */
  lemma {:induction false} SortedClock(ttl: Duration, log: seq<Record>)
    requires Sorted(log)
    ensures TruthOf(ttl, log).clock <= LastStamp(log)
  {
    if log != [] {
      SortedClock(ttl, log[..|log| - 1]);
    }
  }

  ghost predicate Opened(ttl: Duration, log: seq<Record>, s: State) {
    && -1 <= s.epoch < |log|
    && (s.epoch == -1 ==> s.holder == "")
    && (s.epoch >= 0 ==> log[s.epoch].kind == Claim && Verdict(ttl, log, s.epoch) == Accepted)
    && (s.holder != "" ==> s.epoch >= 0 && log[s.epoch].holder == s.holder)
  }

  lemma OpenedStep(ttl: Duration, log: seq<Record>, r: Record)
    requires r.offset == |log| && Opened(ttl, log, TruthOf(ttl, log).state)
    ensures Opened(ttl, log + [r], TruthOf(ttl, log + [r]).state)
  {
    TruthOfAppend(ttl, log, r);
    VerdictStands(ttl, log, r);
  }

  /** An epoch is the offset of the accepted claim that opened the term. */
  lemma {:induction false} EpochIsAnAcceptedClaim(ttl: Duration, log: seq<Record>)
    requires Indexed(log)
    ensures Opened(ttl, log, TruthOf(ttl, log).state)
  {
    if log != [] {
      EpochIsAnAcceptedClaim(ttl, log[..|log| - 1]);
      OpenedStep(ttl, log[..|log| - 1], log[|log| - 1]);
      assert log[..|log| - 1] + [log[|log| - 1]] == log;
    }
  }

  /** Epochs only grow as the log does. */
  lemma {:induction false} EpochsGrow(ttl: Duration, log: seq<Record>, i: int)
    requires Indexed(log) && 0 <= i <= |log|
    ensures TruthOf(ttl, log[..i]).state.epoch <= TruthOf(ttl, log).state.epoch
    decreases |log|
  {
    if i == |log| {
      assert log[..i] == log;
    } else {
      var init := log[..|log| - 1];
      EpochsGrow(ttl, init, i);
      assert init[..i] == log[..i];
      EpochIsAnAcceptedClaim(ttl, init);
    }
  }

  /** An epoch names its holder for good. */
  lemma EpochsNameHolders(ttl: Duration, log: seq<Record>, longer: seq<Record>)
    requires Indexed(longer) && log <= longer
    requires TruthOf(ttl, log).state.holder != "" && TruthOf(ttl, longer).state.holder != ""
    ensures var s, t := TruthOf(ttl, log).state, TruthOf(ttl, longer).state;
            s.epoch <= t.epoch && (s.epoch == t.epoch ==> s.holder == t.holder)
  {
    assert longer[..|log|] == log;
    EpochsGrow(ttl, longer, |log|);
    EpochIsAnAcceptedClaim(ttl, log);
    EpochIsAnAcceptedClaim(ttl, longer);
  }

  /** Right after an accepted claim or renew the state is known exactly. */
  lemma StateAfterAccepted(ttl: Duration, log: seq<Record>, i: int)
    requires Indexed(log) && 0 <= i < |log|
    requires log[i].Asserts() && Verdict(ttl, log, i) == Accepted
    ensures var t := TruthOf(ttl, log[..i + 1]);
            t.state == State(log[i].Term().0, log[i].Term().1, t.clock + log[i].ttl)
            && t.clock == Clamp(TruthOf(ttl, log[..i]).clock, log[i]).timestamp
  {
    TruthOfNext(ttl, log, i);
  }

  // ----- live terms -----

  /** While a term is live, every valid record that asserts it was accepted. */
  lemma {:induction false} LiveTermAcceptedAll(ttl: Duration, log: seq<Record>, i: int)
    requires Indexed(log) && 0 <= i < |log|
    requires var t := TruthOf(ttl, log); t.state.HeldAt(t.clock) && log[i].Term() == (t.state.holder, t.state.epoch)
    requires log[i].Asserts() && ValidTtl(ttl, log[i])
    requires log[i].kind == Renew ==> log[i].epoch < i
    ensures Verdict(ttl, log, i) == Accepted
    decreases |log|
  {
    var n := |log| - 1;
    var init, r := log[..n], log[n];
    assert init + [r] == log;
    VerdictStands(ttl, init, r);
    EpochIsAnAcceptedClaim(ttl, init);
    if i < n {
      ClockIsMonotone(ttl, log, n);
      LiveTermAcceptedAll(ttl, init, i);
    }
  }

  /** While a term is live it has been the state, and live, ever since its claim. */
  lemma {:induction false} LiveTermWasLive(ttl: Duration, log: seq<Record>, i: int)
    requires Indexed(log)
    requires var t := TruthOf(ttl, log); t.state.HeldAt(t.clock) && 0 <= i && t.state.epoch < i <= |log|
    ensures var t, u := TruthOf(ttl, log), TruthOf(ttl, log[..i]);
            u.state.holder == t.state.holder && u.state.epoch == t.state.epoch && u.state.HeldAt(u.clock)
            && (i < |log| && log[i].kind != Unknown ==> u.state.HeldAt(Clamp(u.clock, log[i]).timestamp))
    decreases |log|
  {
    var n := |log| - 1;
    if i == |log| {
      assert log[..i] == log;
    } else {
      var init, r := log[..n], log[n];
      assert init + [r] == log;
      EpochIsAnAcceptedClaim(ttl, init);
      ClockIsMonotone(ttl, log, n);
      if i < n {
        LiveTermWasLive(ttl, init, i);
        assert init[..i] == log[..i];
      } else {
        assert log[..i] == init;
      }
    }
  }

  /** On a sorted log a term that is live at b was live for the record right after any point
      since its claim. */
  lemma {:induction false} LiveTermWasLiveNext(ttl: Duration, log: seq<Record>, i: int, b: Time)
    requires Indexed(log) && Sorted(log) && LastStamp(log) <= b
    requires var s := TruthOf(ttl, log).state; s.HeldAt(b) && 0 <= i && s.epoch < i <= |log|
    ensures var s, u := TruthOf(ttl, log).state, TruthOf(ttl, log[..i]).state;
            u.holder == s.holder && u.epoch == s.epoch && u.HeldAt(if i < |log| then log[i].timestamp else b)
    decreases |log|
  {
    var n := |log| - 1;
    if i == |log| {
      assert log[..i] == log;
    } else {
      var init, r := log[..n], log[n];
      assert init + [r] == log;
      EpochIsAnAcceptedClaim(ttl, init);
      SortedClock(ttl, init);
      LiveTermWasLiveNext(ttl, init, i, r.timestamp);
      assert init[..i] == log[..i];
    }
  }

  /** No release of the term (h, e) in log[from..]. */
  ghost predicate NoRelease(log: seq<Record>, from: int, h: string, e: int) {
    forall j :: 0 <= from <= j < |log| && log[j].kind == Release ==> log[j].Term() != (h, e)
  }

  lemma PersistsStep(ttl: Duration, log: seq<Record>, r: Record, h: string, e: int, x: Time)
    requires Indexed(log) && r.offset == |log| && h != ""
    requires var s := TruthOf(ttl, log).state; s.holder == h && s.epoch == e && x <= s.expires
    requires TruthOf(ttl, log + [r]).clock < x
    requires r.kind == Renew && r.Term() == (h, e) && ValidTtl(ttl, r) ==> x <= TruthOf(ttl, log + [r]).clock + r.ttl
    requires r.kind == Release ==> r.Term() != (h, e)
    ensures var s := TruthOf(ttl, log + [r]).state; s.holder == h && s.epoch == e && x <= s.expires
  {
    TruthOfAppend(ttl, log, r);
  }

  /** Every later renew of the term of record k carries it to x at least. */
  ghost predicate Renewals(ttl: Duration, log: seq<Record>, k: int, x: Time)
    requires 0 <= k < |log|
  {
    forall j {:trigger TruthOf(ttl, log[..j + 1])} ::
      k < j < |log| && log[j].kind == Renew && log[j].Term() == log[k].Term() && ValidTtl(ttl, log[j]) ==>
        x <= TruthOf(ttl, log[..j + 1]).clock + log[j].ttl
  }

  lemma RenewalsBefore(ttl: Duration, log: seq<Record>, k: int, x: Time)
    requires 0 <= k < |log| - 1 && Renewals(ttl, log, k, x)
    ensures Renewals(ttl, log[..|log| - 1], k, x)
    ensures var r := log[|log| - 1];
            r.kind == Renew && r.Term() == log[k].Term() && ValidTtl(ttl, r) ==> x <= TruthOf(ttl, log).clock + r.ttl
  {
    var n := |log| - 1;
    hide TruthOf;
    assert log[..n + 1] == log && TruthOf(ttl, log[..n + 1]) == TruthOf(ttl, log);
    assert forall j {:trigger log[..n][..j + 1]} :: k < j < n ==> log[..n][..j + 1] == log[..j + 1];
  }

  /** A term that nobody releases lasts at least until x, whatever else lands, if its record k carries it that
      far and no later renew of its own cuts it short of x. */
  lemma {:induction false} TermPersists(ttl: Duration, log: seq<Record>, k: int, x: Time)
    requires Indexed(log) && 0 <= k < |log| && log[k].Asserts() && log[k].holder != ""
    requires Verdict(ttl, log, k) == Accepted && x <= TruthOf(ttl, log[..k + 1]).clock + log[k].ttl
    requires NoRelease(log, k + 1, log[k].Term().0, log[k].Term().1) && Renewals(ttl, log, k, x)
    requires TruthOf(ttl, log).clock < x
    ensures var s := TruthOf(ttl, log).state; (s.holder, s.epoch) == log[k].Term() && x <= s.expires
    decreases |log|
  {
    var n := |log| - 1;
    StateAfterAccepted(ttl, log, k);
    if k == n {
      assert log[..k + 1] == log;
    } else {
      var init, r := log[..n], log[n];
      assert init + [r] == log && init[..k + 1] == log[..k + 1];
      hide TruthOf, Fold, Judge, Renewals;
      VerdictStands(ttl, init, r);
      ClockIsMonotone(ttl, log, n);
      RenewalsBefore(ttl, log, k, x);
      TermPersists(ttl, init, k, x);
      PersistsStep(ttl, init, r, log[k].Term().0, log[k].Term().1, x);
    }
  }
}
