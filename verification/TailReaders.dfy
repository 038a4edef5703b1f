/**
 Readers of a tail when timestamps step backwards (docs/protocol.md, "Reading a truncated log"). The view
 clamps what it reads, so two readers of one log may see a record at different times. Readers whose
 gap-free stretches begin where the log's own clock does not run ahead agree with the whole log; in general,
 agreement holds exactly when timestamps never step back.
 */
module TailReaders {
  import opened Records
  import opened LeaseFold
  import opened Views
  import opened LateReaders

  // ----- the log as the whole log's clock sees it -----

  /** When the record at offset i happens, by the clamped clock. */
  ghost function StampAt(ttl: Duration, log: seq<Record>, i: int): Time
    requires 0 <= i < |log|
  {
    var clock := TruthOf(ttl, log[..i]).clock;
    if log[i].kind == Unknown || log[i].timestamp < clock then clock else log[i].timestamp
  }

  ghost function Straight(ttl: Duration, log: seq<Record>): (straight: seq<Record>)
    ensures |straight| == |log|
    ensures forall i {:trigger straight[i]} :: 0 <= i < |log| ==> straight[i] == log[i].(timestamp := StampAt(ttl, log, i))
  {
    seq(|log|, i requires 0 <= i < |log| => log[i].(timestamp := StampAt(ttl, log, i)))
  }

  lemma StraightPrefix(ttl: Duration, log: seq<Record>, n: int)
    requires 0 <= n <= |log|
    ensures Straight(ttl, log)[..n] == Straight(ttl, log[..n])
  {
    forall i | 0 <= i < n ensures Straight(ttl, log)[i] == Straight(ttl, log[..n])[i] {
      assert log[..n][..i] == log[..i];
    }
  }

  lemma {:induction false} StraightTruth(ttl: Duration, log: seq<Record>)
    ensures TruthOf(ttl, Straight(ttl, log)) == TruthOf(ttl, log)
  {
    if log != [] {
      var n := |log| - 1;
      StraightTruth(ttl, log[..n]);
      StraightPrefix(ttl, log, n);
    }
  }

  lemma StraightVerdict(ttl: Duration, log: seq<Record>, i: int)
    requires 0 <= i < |log|
    ensures Verdict(ttl, Straight(ttl, log), i) == Verdict(ttl, log, i)
  {
    StraightPrefix(ttl, log, i);
    StraightTruth(ttl, log[..i]);
  }

  /** The last record happens when the clock says. */
  lemma StraightLast(ttl: Duration, log: seq<Record>)
    ensures LastStamp(Straight(ttl, log)) == if log == [] then ZERO_TIME else TruthOf(ttl, log).clock
  {
  }

  lemma {:induction false} StraightIsSorted(ttl: Duration, log: seq<Record>)
    ensures Sorted(Straight(ttl, log))
  {
    if log != [] {
      var n := |log| - 1;
      StraightIsSorted(ttl, log[..n]);
      StraightPrefix(ttl, log, n);
      StraightLast(ttl, log[..n]);
      ClockIsMonotone(ttl, log[..n], 0);
    }
  }

  lemma StraightIsHonest(ttl: Duration, log: seq<Record>)
    requires Indexed(log) && Honest(ttl, log)
    ensures Indexed(Straight(ttl, log)) && Honest(ttl, Straight(ttl, log))
  {
    var straight := Straight(ttl, log);
    forall n | 0 <= n < |log| ensures Backs(ttl, straight[..n], straight[n]) {
      assert Backs(ttl, log[..n], log[n]);
      StraightPrefix(ttl, log, n);
      forall i | 0 <= i < n && straight[n].kind in {Renew, Release} && straight[i].Asserts() && ValidTtl(ttl, straight[i]) && straight[i].Term() == straight[n].Term()
        ensures Verdict(ttl, straight[..n], i) == Accepted
      {
        StraightVerdict(ttl, log[..n], i);
        assert log[..n][i] == log[i] && Verdict(ttl, log[..n], i) == Accepted;
      }
    }
  }

  // ----- readers in step with it -----

  /** Does the k-th pick begin a stretch, that is, come after records the reader did not see? */
  predicate Begins(start: int, picks: seq<int>, k: int)
    requires 0 <= k < |picks|
  {
    if k == 0 then 0 < start || 0 < picks[0] else picks[k - 1] + 1 < picks[k]
  }

  /** Every gap-free stretch begins with a record that the log's clock does not run ahead of. */
  ghost predicate FreshStarts(ttl: Duration, log: seq<Record>, start: int, picks: seq<int>)
    requires Reading(log, start, picks)
  {
    forall k :: 0 <= k < |picks| && Begins(start, picks, k) ==>
      log[picks[k]].kind != Unknown && TruthOf(ttl, log[..picks[k]]).clock <= log[picks[k]].timestamp
  }

  /** Reading the raw record is reading the straightened one. */
  lemma SameRead(ttl: Duration, log: seq<Record>, reader: Reader, at: int)
    requires Indexed(log) && 0 <= at < |log|
    requires log[at].kind != Unknown ==> TruthOf(ttl, log[..at]).clock <= reader.view.clock || TruthOf(ttl, log[..at]).clock <= log[at].timestamp
    ensures Read(reader, log[at]) == Read(reader, Straight(ttl, log)[at])
  {
  }

  /** A reader keeps the time of the whole log. */
  lemma KeepsTime(ttl: Duration, log: seq<Record>, reader: Reader, at: int)
    requires Indexed(log) && 0 <= reader.next <= at < |log| && reader.view.lastOffset < reader.next
    requires if reader.next == at && reader.view.clock == TruthOf(ttl, log[..at]).clock then true
             else log[at].kind != Unknown && reader.view.clock <= TruthOf(ttl, log[..at]).clock <= log[at].timestamp
    ensures var after := Read(reader, log[at]).0;
            after.next == at + 1 && after.view.lastOffset < at + 1 && after.view.clock == TruthOf(ttl, log[..at + 1]).clock
  {
    TruthOfNext(ttl, log, at);
    ApplyContract(if at > reader.next then Gap(reader.view) else reader.view, log[at]);
  }

  ghost predicate OnTime(ttl: Duration, log: seq<Record>, start: int, picks: seq<int>, reader: Reader) {
    && 0 <= reader.next <= |log| && reader.view.lastOffset < reader.next
    && reader.next == (if picks == [] then start else picks[|picks| - 1] + 1)
    && reader.view.clock <= TruthOf(ttl, log[..reader.next]).clock
    && (picks != [] || start == 0 ==> reader.view.clock == TruthOf(ttl, log[..reader.next]).clock)
  }

  /** What the next pick finds. */
  lemma NextPick(ttl: Duration, log: seq<Record>, start: int, picks: seq<int>, reader: Reader)
    requires Reading(log, start, picks) && FreshStarts(ttl, log, start, picks) && picks != []
    requires OnTime(ttl, log, start, picks[..|picks| - 1], reader)
    ensures var at := picks[|picks| - 1];
            reader.next <= at < |log| && reader.view.clock <= TruthOf(ttl, log[..at]).clock
            && ((reader.next == at && reader.view.clock == TruthOf(ttl, log[..at]).clock)
                || (log[at].kind != Unknown && TruthOf(ttl, log[..at]).clock <= log[at].timestamp))
  {
    var n := |picks| - 1;
    var at := picks[n];
    assert reader.next <= at;
    ClockIsMonotone(ttl, log[..at], reader.next);
    assert log[..at][..reader.next] == log[..reader.next];
    assert !Begins(start, picks, n) ==> reader.next == at && (n > 0 || start == 0);
  }

  lemma ReadingPrefix(ttl: Duration, log: seq<Record>, start: int, picks: seq<int>)
    requires Reading(log, start, picks) && FreshStarts(ttl, log, start, picks) && picks != []
    ensures var front := picks[..|picks| - 1]; Reading(log, start, front) && FreshStarts(ttl, log, start, front)
  {
    var front := picks[..|picks| - 1];
    assert forall k :: 0 <= k < |front| ==> front[k] == picks[k] && Begins(start, front, k) == Begins(start, picks, k);
  }

  lemma StartsOnTime(ttl: Duration, log: seq<Record>, start: int)
    requires 0 <= start <= |log|
    ensures OnTime(ttl, log, start, [], Start(ttl, start))
  {
    ClockIsMonotone(ttl, log[..start], 0);
    assert log[..start][..0] == [] && (start == 0 ==> log[..start] == []);
  }

  lemma StepsOnTime(ttl: Duration, log: seq<Record>, start: int, picks: seq<int>, reader: Reader)
    requires Indexed(log) && Reading(log, start, picks) && FreshStarts(ttl, log, start, picks) && picks != []
    requires OnTime(ttl, log, start, picks[..|picks| - 1], reader)
    ensures var at := picks[|picks| - 1];
            Read(reader, log[at]) == Read(reader, Straight(ttl, log)[at]) && OnTime(ttl, log, start, picks, Read(reader, log[at]).0)
  {
    var at := picks[|picks| - 1];
    hide Read, TruthOf, FreshStarts, Indexed, Begins;
    NextPick(ttl, log, start, picks, reader);
    SameRead(ttl, log, reader, at);
    KeepsTime(ttl, log, reader, at);
  }

  /** Reading the raw log in step is reading the straightened one. */
  lemma {:induction false} SameReader(ttl: Duration, log: seq<Record>, start: int, picks: seq<int>)
    requires Indexed(log) && Reading(log, start, picks) && FreshStarts(ttl, log, start, picks)
    ensures ReadAll(ttl, log, start, picks) == ReadAll(ttl, Straight(ttl, log), start, picks)
    ensures OnTime(ttl, log, start, picks, ReadAll(ttl, log, start, picks))
  {
    if picks == [] {
      StartsOnTime(ttl, log, start);
    } else {
      var n := |picks| - 1;
      var front := picks[..n];
      hide Read, FreshStarts, Indexed, OnTime;
      ReadingPrefix(ttl, log, start, picks);
      SameReader(ttl, log, start, front);
      StepsOnTime(ttl, log, start, picks, ReadAll(ttl, log, start, front));
    }
  }

  lemma SameNext(ttl: Duration, log: seq<Record>, start: int, picks: seq<int>, at: int)
    requires Indexed(log) && Reading(log, start, picks + [at]) && FreshStarts(ttl, log, start, picks + [at])
    ensures Reading(log, start, picks) && start <= at < |log| && (picks != [] ==> picks[|picks| - 1] < at)
    ensures Read(ReadAll(ttl, log, start, picks), log[at]) == Read(ReadAll(ttl, Straight(ttl, log), start, picks), Straight(ttl, log)[at])
  {
    var all := picks + [at];
    assert all[..|picks|] == picks && all[|picks|] == at;
    assert picks != [] ==> all[|picks| - 1] < all[|picks|];
    hide Read, TruthOf, FreshStarts, Indexed, Begins;
    ReadingPrefix(ttl, log, start, all);
    SameReader(ttl, log, start, picks);
    NextPick(ttl, log, start, all, ReadAll(ttl, log, start, picks));
    SameRead(ttl, log, ReadAll(ttl, log, start, picks), at);
  }

  lemma StraightAt(ttl: Duration, log: seq<Record>, at: int)
    requires 0 <= at < |log|
    ensures TruthOf(ttl, Straight(ttl, log)[..at + 1]) == TruthOf(ttl, log[..at + 1])
    ensures Straight(ttl, log)[at].timestamp == TruthOf(ttl, log[..at + 1]).clock
  {
    hide TruthOf;
    StraightPrefix(ttl, log, at + 1);
    StraightTruth(ttl, log[..at + 1]);
    StraightLast(ttl, log[..at + 1]);
    assert Straight(ttl, log)[..at + 1][at] == Straight(ttl, log)[at];
  }

  lemma SameReading(ttl: Duration, log: seq<Record>, start: int, picks: seq<int>)
    requires Reading(log, start, picks)
    ensures Reading(Straight(ttl, log), start, picks)
  {
  }

  /** Late readers agree on any log with honest anchors, whatever its timestamps, if their stretches begin in
      step with it: they give each record the verdict of the whole log, when they give one, and show the
      same state when either shows the lease held. */
  lemma FreshReadersAgree(ttl: Duration, log: seq<Record>, start: int, picks: seq<int>, at: int)
    requires 0 < ttl && Indexed(log) && Honest(ttl, log)
    requires Reading(log, start, picks + [at]) && FreshStarts(ttl, log, start, picks + [at])
    ensures 0 <= at < |log| && Reading(log, start, picks)
    ensures var (after, out) := Read(ReadAll(ttl, log, start, picks), log[at]);
            (out != Pending ==> out == Verdict(ttl, log, at))
            && (after.view.certain ==> SameFrom(after.view.state, TruthOf(ttl, log[..at + 1]).state, TruthOf(ttl, log[..at + 1]).clock))
  {
    SameNext(ttl, log, start, picks, at);
    SameReading(ttl, log, start, picks);
    StraightIsSorted(ttl, log);
    StraightIsHonest(ttl, log);
    StraightVerdict(ttl, log, at);
    StraightAt(ttl, log, at);
    hide *;
    LateReadersAgree(ttl, Straight(ttl, log), start, picks, at);
  }

  // ----- exactly when all readers agree -----

  ghost predicate AgreesAt(ttl: Duration, log: seq<Record>, start: int, picks: seq<int>, at: int)
    requires Reading(log, start, picks) && 0 <= at < |log|
  {
    var (_, out) := Read(ReadAll(ttl, log, start, picks), log[at]);
    out != Pending ==> out == Verdict(ttl, log, at)
  }

  /** Every verdict of every reader is the whole log's. */
  ghost predicate AllAgree(ttl: Duration, log: seq<Record>) {
    forall start, picks, at ::
      Reading(log, start, picks) && start <= at < |log| && (picks != [] ==> picks[|picks| - 1] < at) ==>
        AgreesAt(ttl, log, start, picks, at)
  }

  /** From one record to the next, timestamps step back by no more than sigma. */
  ghost predicate StepsBack(log: seq<Record>, sigma: int) {
    && (forall i {:trigger log[i]} :: 0 <= i < |log| ==> ZERO_TIME <= log[i].timestamp)
    && (forall i {:trigger log[i]} :: 0 < i < |log| ==> log[i - 1].timestamp - sigma <= log[i].timestamp)
  }

  lemma {:induction false} NoStepIsSorted(log: seq<Record>, sigma: int)
    requires StepsBack(log, sigma) && sigma <= 0
    ensures Sorted(log)
  {
    if log != [] {
      var n := |log| - 1;
      assert forall i :: 0 <= i < n ==> log[..n][i] == log[i];
      NoStepIsSorted(log[..n], sigma);
    }
  }

  lemma SortedReadersAgree(ttl: Duration, log: seq<Record>)
    requires 0 < ttl && Indexed(log) && Sorted(log) && Honest(ttl, log)
    ensures AllAgree(ttl, log)
  {
    forall start, picks, at |
      Reading(log, start, picks) && start <= at < |log| && (picks != [] ==> picks[|picks| - 1] < at)
      ensures AgreesAt(ttl, log, start, picks, at)
    {
      LateReadersAgree(ttl, log, start, picks, at);
    }
  }

  /** z takes the lease and gives it up at time 2; a takes it and renews it at time 1; b claims a TTL later. */
  function Backwards(ttl: Duration): seq<Record> {
    [Record(0, 2, Claim, "z", 0, ttl), Record(1, 2, Release, "z", 0, ttl),
     Record(2, 1, Claim, "a", 0, ttl), Record(3, 1, Renew, "a", 2, ttl), Record(4, 1 + ttl, Claim, "b", 0, ttl)]
  }

  /** Whoever read z's records has a's term end at 2 + ttl. */
  lemma WholeLogRejects(ttl: Duration)
    requires 0 < ttl
    ensures var log := Backwards(ttl);
            Verdict(ttl, log, 0) == Verdict(ttl, log, 1) == Verdict(ttl, log, 2) == Accepted && Verdict(ttl, log, 4) == Rejected
  {
    var log := Backwards(ttl);
    assert log[..0] == [];
    TruthOfNext(ttl, log, 0);
    assert TruthOf(ttl, log[..1]) == Truth(State("z", 0, 2 + ttl), 2);
    TruthOfNext(ttl, log, 1);
    assert TruthOf(ttl, log[..2]) == Truth(State("", 0, 2), 2);
    TruthOfNext(ttl, log, 2);
    assert TruthOf(ttl, log[..3]) == Truth(State("a", 2, 2 + ttl), 2);
    TruthOfNext(ttl, log, 3);
    assert TruthOf(ttl, log[..4]) == Truth(State("a", 2, 2 + ttl), 2);
  }

  /** For a reader from offset 2 on it ends at 1 + ttl. */
  lemma TailAccepts(ttl: Duration)
    requires 0 < ttl
    ensures var log := Backwards(ttl);
            Reading(log, 2, [2, 3]) && Read(ReadAll(ttl, log, 2, [2, 3]), log[4]).1 == Accepted
  {
    var log := Backwards(ttl);
    var first := Read(Start(ttl, 2), log[2]).0;
    assert [] + [log[2]] == [log[2]];
    assert DropOld([log[2]], 1 - 2 * ttl) == [log[2]];
    assert first.view.pending == [log[2]];
    assert FindAnchor([log[2]], "a", 2) == 0 && [log[2]][1..] == [];
    var second := Read(first, log[3]).0;
    assert second.view.certain && second.view.state == State("a", 2, 1 + ttl) && second.view.clock == 1;
    assert [2, 3][..1] == [2] && [2][..0] == [];
    assert ReadAll(ttl, log, 2, [2]) == first;
    assert ReadAll(ttl, log, 2, [2, 3]) == second;
  }

  lemma BackwardsIsHonest(ttl: Duration)
    requires 0 < ttl
    ensures Indexed(Backwards(ttl)) && Honest(ttl, Backwards(ttl)) && StepsBack(Backwards(ttl), 1)
  {
    var log := Backwards(ttl);
    WholeLogRejects(ttl);
    forall n | 0 <= n < |log| ensures Backs(ttl, log[..n], log[n]) {
      forall i | 0 <= i < n && log[i].Asserts() && log[i].Term() == log[n].Term() && log[n].kind in {Renew, Release}
        ensures Verdict(ttl, log[..n], i) == Accepted
      {
        assert (n == 1 && i == 0) || (n == 3 && i == 2);
        assert log[..n][..i] == log[..i];
      }
    }
  }

  /** All readers of all logs with honest anchors agree with the whole log exactly when timestamps do not
      step back at all, not even by a nanosecond. */
  lemma AgreementIsExact(ttl: Duration, sigma: int)
    requires 0 < ttl
    ensures (forall log :: Indexed(log) && Honest(ttl, log) && StepsBack(log, sigma) ==> AllAgree(ttl, log)) <==> sigma <= 0
  {
    if sigma <= 0 {
      forall log | Indexed(log) && Honest(ttl, log) && StepsBack(log, sigma) ensures AllAgree(ttl, log) {
        NoStepIsSorted(log, sigma);
        SortedReadersAgree(ttl, log);
      }
    } else {
      var log := Backwards(ttl);
      BackwardsIsHonest(ttl);
      WholeLogRejects(ttl);
      TailAccepts(ttl);
      assert StepsBack(log, sigma);
      assert !AgreesAt(ttl, log, 2, [2, 3], 4);
    }
  }
}
