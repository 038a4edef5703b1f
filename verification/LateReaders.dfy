/**
 Readers of a truncated log (docs/protocol.md, "Reading a truncated log"). On a log whose
 timestamps do not step backwards and whose anchors are honest, a view that starts anywhere
 and crosses any holes agrees with the fold of the whole log as soon as it is certain.
 */
module LateReaders {
  import opened Records
  import opened LeaseFold
  import opened Views
  import opened Pendings

  /** Indistinguishable from time b on. */
  ghost predicate Agree(s: State, t: State, b: Time) {
    s == t || (!s.HeldAt(b) && !t.HeldAt(b))
  }

  /** If r is a renew or release, every valid record of log that asserts r's term was accepted. */
  ghost predicate Backs(ttl: Duration, log: seq<Record>, r: Record) {
    r.kind in {Renew, Release} ==>
      forall i {:trigger Verdict(ttl, log, i)} ::
        0 <= i < |log| && log[i].Asserts() && ValidTtl(ttl, log[i]) && log[i].Term() == r.Term() ==>
          Verdict(ttl, log, i) == Accepted
  }

  /** The anchor rule is sound on this log. */
  ghost predicate Honest(ttl: Duration, log: seq<Record>) {
    forall n {:trigger Backs(ttl, log[..n], log[n])} :: 0 <= n < |log| ==> Backs(ttl, log[..n], log[n])
  }

  /** What a view that has reached the end of `log` may rely on, when every later record is
      stamped b or more; g is where its current gap-free stretch began. */
  ghost predicate Sound(ttl: Duration, log: seq<Record>, b: Time, g: int, v: ViewState) {
    && 0 < ttl == v.ttl
    && Indexed(log) && Sorted(log) && TruthOf(ttl, log).clock <= b
    && v.clock <= b && v.lastOffset < |log|
    && 0 <= g <= |log|
    && (v.seen ==> v.clock == TruthOf(ttl, log).clock)
    && (v.certain ==> Agree(v.state, TruthOf(ttl, log).state, b))
    && (!v.certain ==> v.pending == Keep(ttl, log[g..], v.clock - 2 * ttl))
  }

  lemma SoundFromStart(ttl: Duration, b: Time)
    requires 0 < ttl && ZERO_TIME <= b
    ensures Sound(ttl, [], b, 0, NewFromStart(ttl))
  {
  }

  lemma SoundNew(ttl: Duration, log: seq<Record>, b: Time)
    requires 0 < ttl && Indexed(log) && Sorted(log) && ZERO_TIME <= b && TruthOf(ttl, log).clock <= b
    ensures Sound(ttl, log, b, |log|, New(ttl))
  {
  }

  lemma SoundLater(ttl: Duration, log: seq<Record>, b: Time, b': Time, g: int, v: ViewState)
    requires Sound(ttl, log, b, g, v) && b <= b'
    ensures Sound(ttl, log, b', g, v)
  {
  }

  lemma SoundGap(ttl: Duration, log: seq<Record>, b: Time, g: int, v: ViewState, more: seq<Record>, b': Time)
    requires Sound(ttl, log, b, g, v) && |log| <= |more| && b <= b'
    requires Indexed(more) && Sorted(more) && TruthOf(ttl, more).clock <= b'
    ensures Sound(ttl, more, b', |more|, Gap(v))
  {
  }

  /** Declaring the lease free is right when the fold of everything below agrees. */
  lemma SoundFree(ttl: Duration, log: seq<Record>, b: Time, g: int, v: ViewState)
    requires Sound(ttl, log, b, g, v) && !v.certain
    requires !TruthOf(ttl, log).state.HeldAt(b)
    ensures Sound(ttl, log, b, g, SetFree(v))
  {
  }

  /** Two states that agree judge the next record alike and still agree. */
  lemma AgreeFold(ttl: Duration, s: State, t: State, b: Time, r: Record)
    requires Agree(s, t, b) && b <= r.timestamp && r.kind != Unknown
    ensures Fold(ttl, s, r).1 == Fold(ttl, t, r).1
    ensures Agree(Fold(ttl, s, r).0, Fold(ttl, t, r).0, r.timestamp)
  {
  }

  lemma ReplayAppend(ttl: Duration, s: State, rs: seq<Record>, r: Record)
    ensures Replay(ttl, s, rs + [r]) == Fold(ttl, Replay(ttl, s, rs), r).0
  {
    assert (rs + [r])[..|rs|] == rs;
  }

  /** On a log that never steps back, replaying the raw records is folding them. */
  lemma {:induction false} ReplayLog(ttl: Duration, log: seq<Record>, j: int)
    requires Sorted(log) && 0 <= j <= |log|
    ensures Replay(ttl, TruthOf(ttl, log[..j]).state, log[j..]) == TruthOf(ttl, log).state
    decreases |log|
  {
    if j == |log| {
      assert log[..j] == log;
    } else {
      var n := |log| - 1;
      var init, r := log[..n], log[n];
      assert init[..j] == log[..j] && log[j..] == init[j..] + [r] && init + [r] == log;
      SortedPrefix(log, n);
      SortedClock(ttl, init);
      ReplayLog(ttl, init, j);
      TruthOfAppend(ttl, init, r);
      ReplayAppend(ttl, TruthOf(ttl, init[..j]).state, init[j..], r);
    }
  }

  /** From a proven state, replaying what is pending is folding the raw log. */
  lemma ReplayIsTruth(ttl: Duration, log: seq<Record>, j: int, h: Time)
    requires Sorted(log) && 0 <= j <= |log|
    requires j < |log| ==> h <= log[j].timestamp
    ensures Replay(ttl, TruthOf(ttl, log[..j]).state, Keep(ttl, log[j..], h)) == TruthOf(ttl, log).state
  {
    forall r | r in log[j..] ensures h <= r.timestamp {
      var i :| j <= i < |log| && log[i] == r;
      SortedPair(log, j, i);
    }
    ReplayKept(ttl, TruthOf(ttl, log[..j]).state, log[j..], h);
    ReplayLog(ttl, log, j);
  }

  /** An honest anchor at offset j proves the state of the whole log. */
  lemma AnchorAt(ttl: Duration, log: seq<Record>, h: Time, j: int, r: Record)
    requires Indexed(log) && Sorted(log) && 0 <= j < |log| && h <= log[j].timestamp
    requires log[j].Asserts() && log[j].Term() == r.Term() && Verdict(ttl, log, j) == Accepted
    ensures Replay(ttl, State(r.Term().0, r.Term().1, log[j].timestamp + log[j].ttl), Keep(ttl, log[j + 1..], h))
         == TruthOf(ttl, log).state
  {
    SortedPrefix(log, j);
    SortedClock(ttl, log[..j]);
    StateAfterAccepted(ttl, log, j);
    if j + 1 < |log| {
      SortedPair(log, j, j + 1);
    }
    ReplayIsTruth(ttl, log, j + 1, h);
  }

  lemma KeptInLog(ttl: Duration, log: seq<Record>, g: int, h: Time, i: int) returns (j: int)
    requires 0 <= g <= |log| && 0 <= i < |Keep(ttl, log[g..], h)|
    ensures 0 <= j < |log| && Keep(ttl, log[g..], h)[i] == log[j]
    ensures log[j].kind != Unknown && ValidTtl(ttl, log[j]) && h <= log[j].timestamp
    ensures Keep(ttl, log[g..], h)[i + 1..] == Keep(ttl, log[j + 1..], h)
  {
    var k := KeepFrom(ttl, log[g..], h, i);
    j := g + k;
    assert log[g..][k + 1..] == log[j + 1..];
  }

  lemma AnchorProves(ttl: Duration, log: seq<Record>, g: int, h: Time, i: int, r: Record)
    requires Indexed(log) && Sorted(log) && 0 <= g <= |log|
    requires r.kind in {Renew, Release} && Backs(ttl, log, r)
    requires var pending := Keep(ttl, log[g..], h);
             0 <= i < |pending| && Anchors(pending[i], r.Term().0, r.Term().1)
    ensures var pending := Keep(ttl, log[g..], h);
            var p := pending[i];
            Replay(ttl, State(r.Term().0, r.Term().1, p.timestamp + p.ttl), pending[i + 1..]) == TruthOf(ttl, log).state
  {
    var j := KeptInLog(ttl, log, g, h, i);
    assert Verdict(ttl, log, j) == Accepted;
    AnchorAt(ttl, log, h, j, r);
  }

  /** A view that judges r on a state which agrees with the truth. */
  lemma JudgedOnAgreement(ttl: Duration, log: seq<Record>, b: Time, v: ViewState, r: Record, s: State)
    requires v.ttl == ttl && v.clock <= r.timestamp && v.lastOffset < r.offset == |log|
    requires r.kind != Unknown && TruthOf(ttl, log).clock <= b <= r.timestamp
    requires Agree(s, TruthOf(ttl, log).state, b)
    requires Apply(v, r).ok && Apply(v, r).view.state == Fold(ttl, s, r).0 && Apply(v, r).outcome == Fold(ttl, s, r).1
    ensures Agree(Apply(v, r).view.state, TruthOf(ttl, log + [r]).state, r.timestamp)
    ensures Apply(v, r).outcome == Judge(ttl, TruthOf(ttl, log), r).1
  {
    TruthOfAppend(ttl, log, r);
    AgreeFold(ttl, s, TruthOf(ttl, log).state, b, r);
  }

  lemma ApplySilent(v: ViewState, r: Record)
    requires v.lastOffset < r.offset && r.kind != Unknown && v.clock <= r.timestamp && Silent(v, r)
    ensures var a := Apply(v, r);
            a.ok && a.view.certain && (a.view.state, a.outcome) == Fold(v.ttl, NOTHING.state, r)
  {
  }

  lemma ApplyAnchored(v: ViewState, r: Record)
    requires v.lastOffset < r.offset && r.kind != Unknown && v.clock <= r.timestamp
    requires !v.certain && !Silent(v, r) && Apply(v, r).view.certain
    ensures r.kind != Claim
    ensures var i := FindAnchor(v.pending, r.Term().0, r.Term().1);
            i < |v.pending|
            && var s := Replay(v.ttl, State(r.Term().0, r.Term().1, v.pending[i].timestamp + v.pending[i].ttl), v.pending[i + 1..]);
            (Apply(v, r).view.state, Apply(v, r).outcome) == Fold(v.ttl, s, r)
  {
  }

  lemma ApplyCertain(v: ViewState, r: Record)
    requires v.lastOffset < r.offset && r.kind != Unknown && v.clock <= r.timestamp && v.certain
    ensures var a := Apply(v, r);
            a.ok && a.view.certain && (a.view.state, a.outcome) == Fold(v.ttl, v.state, r)
  {
  }

  lemma AnchoredVerdict(ttl: Duration, log: seq<Record>, b: Time, g: int, v: ViewState, r: Record)
    requires Indexed(log) && Sorted(log) && TruthOf(ttl, log).clock <= b <= r.timestamp
    requires v.ttl == ttl && v.clock <= r.timestamp && v.lastOffset < |log| && 0 <= g <= |log|
    requires v.pending == Keep(ttl, log[g..], v.clock - 2 * ttl)
    requires r.kind != Unknown && r.offset == |log| && Backs(ttl, log, r)
    requires Apply(v, r).ok && Apply(v, r).view.certain && !v.certain && !Silent(v, r)
    ensures Agree(Apply(v, r).view.state, TruthOf(ttl, log + [r]).state, r.timestamp)
    ensures Apply(v, r).outcome == Judge(ttl, TruthOf(ttl, log), r).1
  {
    hide *;
    ApplyAnchored(v, r);
    AnchorProves(ttl, log, g, v.clock - 2 * ttl, FindAnchor(v.pending, r.Term().0, r.Term().1), r);
    JudgedOnAgreement(ttl, log, b, v, r, TruthOf(ttl, log).state);
  }

  lemma SilentVerdict(ttl: Duration, log: seq<Record>, b: Time, g: int, v: ViewState, r: Record)
    requires Sound(ttl, log, b, g, v)
    requires r.kind != Unknown && r.offset == |log| && b <= r.timestamp && Silent(v, r)
    ensures Agree(Apply(v, r).view.state, TruthOf(ttl, log + [r]).state, r.timestamp)
    ensures Apply(v, r).outcome == Judge(ttl, TruthOf(ttl, log), r).1
  {
    TermsAreShort(ttl, log, ttl);
    ApplySilent(v, r);
    JudgedOnAgreement(ttl, log, r.timestamp, v, r, NOTHING.state);
  }

  /** The next record: the view's verdict, if it gives one, is the whole log's verdict. */
  lemma SoundVerdict(ttl: Duration, log: seq<Record>, b: Time, g: int, v: ViewState, r: Record)
    requires Sound(ttl, log, b, g, v)
    requires r.kind != Unknown && r.offset == |log| && b <= r.timestamp && Backs(ttl, log, r)
    requires Apply(v, r).ok && Apply(v, r).view.certain
    ensures Agree(Apply(v, r).view.state, TruthOf(ttl, log + [r]).state, r.timestamp)
    ensures Apply(v, r).outcome == Judge(ttl, TruthOf(ttl, log), r).1
  {
    if v.certain {
      ApplyCertain(v, r);
      JudgedOnAgreement(ttl, log, b, v, r, v.state);
    } else if Silent(v, r) {
      SilentVerdict(ttl, log, b, g, v, r);
    } else {
      AnchoredVerdict(ttl, log, b, g, v, r);
    }
  }

  /** The part of Sound that is about position and clock alone. */
  lemma SoundPosition(ttl: Duration, log: seq<Record>, b: Time, g: int, v: ViewState, r: Record)
    requires Sound(ttl, log, b, g, v) && Sorted(log + [r])
    requires r.kind != Unknown && r.offset == |log| && b <= r.timestamp
    ensures var a := Apply(v, r);
            a.ok && a.view.ttl == ttl && a.view.seen && a.view.lastOffset == r.offset
            && a.view.clock == r.timestamp == TruthOf(ttl, log + [r]).clock
            && Indexed(log + [r]) && (a.outcome != Pending <==> a.view.certain)
  {
    ApplyContract(v, r);
    TruthOfAppend(ttl, log, r);
  }

  lemma SoundPending(ttl: Duration, log: seq<Record>, b: Time, g: int, v: ViewState, r: Record)
    requires Sound(ttl, log, b, g, v) && Sorted(log + [r])
    requires r.kind != Unknown && r.offset == |log| && b <= r.timestamp
    requires Apply(v, r).ok && !Apply(v, r).view.certain && Apply(v, r).view.clock == r.timestamp
    ensures Apply(v, r).view.pending == Keep(ttl, (log + [r])[g..], r.timestamp - 2 * ttl)
  {
    ApplyContract(v, r);
    assert (log + [r])[g..] == log[g..] + [r];
    OrderedSegment(log + [r], g);
    PendingStep(v, log[g..], r);
  }

  lemma SoundApply(ttl: Duration, log: seq<Record>, b: Time, g: int, v: ViewState, r: Record)
    requires Sound(ttl, log, b, g, v) && Sorted(log + [r])
    requires r.kind != Unknown && r.offset == |log| && b <= r.timestamp && Backs(ttl, log, r)
    ensures var a := Apply(v, r);
            a.ok && Sound(ttl, log + [r], r.timestamp, g, a.view)
            && (a.outcome != Pending ==> a.outcome == Judge(ttl, TruthOf(ttl, log), r).1)
  {
    SoundPosition(ttl, log, b, g, v, r);
    if Apply(v, r).view.certain {
      SoundVerdict(ttl, log, b, g, v, r);
    } else {
      SoundPending(ttl, log, b, g, v, r);
    }
  }

  lemma OrderedSegment(log: seq<Record>, g: int)
    requires Sorted(log) && 0 <= g <= |log|
    ensures Ordered(log[g..])
  {
    forall i, j | g <= i < j < |log| ensures log[i].timestamp <= log[j].timestamp {
      SortedPair(log, i, j);
    }
  }

  lemma JunkIsInvisible(ttl: Duration, log: seq<Record>, r: Record, g: int, h: Time)
    requires r.kind == Unknown && 0 <= g <= |log|
    ensures TruthOf(ttl, log + [r]) == TruthOf(ttl, log)
    ensures Keep(ttl, (log + [r])[g..], h) == Keep(ttl, log[g..], h)
  {
    TruthOfAppend(ttl, log, r);
    assert (log + [r])[g..] == log[g..] + [r];
    KeepAppend(ttl, log[g..], r, h);
  }

  /** A message that does not decode passes unnoticed. */
  lemma SoundSkip(ttl: Duration, log: seq<Record>, b: Time, g: int, v: ViewState, r: Record)
    requires Sound(ttl, log, b, g, v) && Sorted(log + [r])
    requires r.kind == Unknown && r.offset == |log|
    ensures Sound(ttl, log + [r], b, g, v)
  {
    hide TruthOf, Keep, Sorted, Judge;
    JunkIsInvisible(ttl, log, r, g, v.clock - 2 * ttl);
  }

  // ----- whole readings -----

  /** A reader and how far it got: it reads the log at increasing offsets, with a Gap at each
      hole, from the first retained offset on. */
  datatype Reader = Reader(view: ViewState, next: int, gap: int)

  function Start(ttl: Duration, start: int): Reader {
    Reader(if start == 0 then NewFromStart(ttl) else New(ttl), start, start)
  }

  function Read(reader: Reader, r: Record): (Reader, Outcome) {
    var v := if r.offset > reader.next then Gap(reader.view) else reader.view;
    var g := if r.offset > reader.next then r.offset else reader.gap;
    if r.kind == Unknown then (Reader(v, r.offset + 1, g), Pending)
    else
      var a := Apply(v, r);
      (Reader(a.view, r.offset + 1, g), a.outcome)
  }

  function ReadAll(ttl: Duration, log: seq<Record>, start: int, picks: seq<int>): Reader
    requires forall k :: 0 <= k < |picks| ==> 0 <= picks[k] < |log|
  {
    if picks == [] then Start(ttl, start)
    else Read(ReadAll(ttl, log, start, picks[..|picks| - 1]), log[picks[|picks| - 1]]).0
  }

  /** The offsets of log that a reader from `start` sees, in order. */
  ghost predicate Reading(log: seq<Record>, start: int, picks: seq<int>) {
    && 0 <= start <= |log|
    && (forall k :: 0 <= k < |picks| ==> start <= picks[k] < |log|)
    && (forall k, m :: 0 <= k < m < |picks| ==> picks[k] < picks[m])
  }

  lemma PrefixIsReadable(ttl: Duration, log: seq<Record>, n: int)
    requires Indexed(log) && Sorted(log) && 0 <= n <= |log|
    ensures Indexed(log[..n]) && Sorted(log[..n])
    ensures ZERO_TIME <= LastStamp(log[..n]) && TruthOf(ttl, log[..n]).clock <= LastStamp(log[..n])
    ensures n < |log| ==> LastStamp(log[..n]) <= log[n].timestamp && log[..n] + [log[n]] == log[..n + 1]
  {
    SortedPrefix(log, n);
    SortedClock(ttl, log[..n]);
  }

  /** Reading r, the record right after p, by a reader that got as far as q. */
  lemma SoundRead(ttl: Duration, q: seq<Record>, b: Time, reader: Reader, p: seq<Record>, r: Record)
    requires Sound(ttl, q, b, reader.gap, reader.view) && reader.next == |q| <= |p| && (|q| == |p| ==> q == p)
    requires Indexed(p) && Sorted(p) && Sorted(p + [r]) && TruthOf(ttl, p).clock <= r.timestamp && b <= r.timestamp
    requires r.offset == |p| && Backs(ttl, p, r)
    ensures var (after, out) := Read(reader, r);
            after.next == |p| + 1 && Sound(ttl, p + [r], r.timestamp, after.gap, after.view)
            && (out != Pending ==> out == Judge(ttl, TruthOf(ttl, p), r).1)
            && (reader.view.certain && |q| == |p| && r.kind != Unknown ==> out != Pending && after.view.certain)
  {
    var v, g := reader.view, reader.gap;
    if |p| > |q| {
      SoundGap(ttl, q, b, g, v, p, r.timestamp);
      v, g := Gap(v), |p|;
    } else {
      SoundLater(ttl, p, b, r.timestamp, g, v);
    }
    if r.kind == Unknown {
      SoundSkip(ttl, p, r.timestamp, g, v, r);
    } else {
      ApplyContract(v, r);
      SoundApply(ttl, p, r.timestamp, g, v, r);
    }
  }

  /** A reader of log that is where Sound wants it. */
  ghost predicate Reached(ttl: Duration, log: seq<Record>, reader: Reader) {
    && 0 <= reader.next <= |log|
    && Sound(ttl, log[..reader.next], LastStamp(log[..reader.next]), reader.gap, reader.view)
  }

  lemma StampsAround(log: seq<Record>, k: int, at: int)
    requires Sorted(log) && 0 <= k <= at < |log|
    ensures LastStamp(log[..k]) <= log[at].timestamp && LastStamp(log[..at + 1]) == log[at].timestamp
    ensures k == at ==> log[..k] == log[..at]
  {
    SortedPrefix(log, k);
    SortedPair(log, k, at);
  }

  lemma ReadStep(ttl: Duration, log: seq<Record>, reader: Reader, at: int)
    requires Indexed(log) && Sorted(log) && Honest(ttl, log) && reader.next <= at < |log|
    requires Reached(ttl, log, reader)
    ensures var (after, out) := Read(reader, log[at]);
            after.next == at + 1 && Reached(ttl, log, after)
            && (out != Pending ==> out == Verdict(ttl, log, at))
            && (reader.view.certain && reader.next == at && log[at].kind != Unknown ==> out != Pending && after.view.certain)
  {
    hide Sound, Sorted, TruthOf, Backs, Apply, Judge, Read;
    var p := log[..at];
    PrefixIsReadable(ttl, log, at);
    PrefixIsReadable(ttl, log, at + 1);
    StampsAround(log, reader.next, at);
    assert Backs(ttl, p, log[at]);
    SoundRead(ttl, log[..reader.next], LastStamp(log[..reader.next]), reader, p, log[at]);
  }

  lemma StartIsReached(ttl: Duration, log: seq<Record>, start: int)
    requires 0 < ttl && Indexed(log) && Sorted(log) && 0 <= start <= |log|
    ensures Reached(ttl, log, Start(ttl, start))
  {
    PrefixIsReadable(ttl, log, start);
    if start == 0 {
      assert log[..0] == [];
      SoundFromStart(ttl, ZERO_TIME);
    } else {
      SoundNew(ttl, log[..start], LastStamp(log[..start]));
    }
  }

  lemma {:induction false} ReadingIsSound(ttl: Duration, log: seq<Record>, start: int, picks: seq<int>)
    requires 0 < ttl && Indexed(log) && Sorted(log) && Honest(ttl, log) && Reading(log, start, picks)
    ensures var reader := ReadAll(ttl, log, start, picks);
            reader.next == (if picks == [] then start else picks[|picks| - 1] + 1) && Reached(ttl, log, reader)
  {
    if picks == [] {
      StartIsReached(ttl, log, start);
    } else {
      var n := |picks| - 1;
      ReadingIsSound(ttl, log, start, picks[..n]);
      ReadStep(ttl, log, ReadAll(ttl, log, start, picks[..n]), picks[n]);
    }
  }

  /** From time b on, both show the lease held by the same term, or both show it free. */
  ghost predicate SameFrom(s: State, t: State, b: Time) {
    forall now :: b <= now ==> (s.HeldAt(now) <==> t.HeldAt(now)) && (t.HeldAt(now) ==> s == t)
  }

  lemma AgreementLasts(s: State, t: State, b: Time)
    ensures Agree(s, t, b) ==> SameFrom(s, t, b)
  {
  }

  lemma ReachedAgrees(ttl: Duration, log: seq<Record>, at: int, reader: Reader)
    requires Sorted(log) && 0 <= at < |log| && reader.next == at + 1 && Reached(ttl, log, reader) && reader.view.certain
    ensures SameFrom(reader.view.state, TruthOf(ttl, log[..at + 1]).state, log[at].timestamp)
  {
    StampsAround(log, at, at);
    AgreementLasts(reader.view.state, TruthOf(ttl, log[..at + 1]).state, log[at].timestamp);
  }

  /** Late readers agree. Whatever a reader saw of the log, once its view is certain it gives
      every further record the verdict of the reader that saw everything, and it shows the
      same state whenever either of them shows the lease held. */
  lemma LateReadersAgree(ttl: Duration, log: seq<Record>, start: int, picks: seq<int>, at: int)
    requires 0 < ttl && Indexed(log) && Sorted(log) && Honest(ttl, log)
    requires Reading(log, start, picks) && start <= at < |log| && (picks != [] ==> picks[|picks| - 1] < at)
    ensures var reader := ReadAll(ttl, log, start, picks);
            var (after, out) := Read(reader, log[at]);
            (out != Pending ==> out == Verdict(ttl, log, at))
            && (after.view.certain ==> SameFrom(after.view.state, TruthOf(ttl, log[..at + 1]).state, log[at].timestamp))
            && (reader.view.certain && at == reader.next && log[at].kind != Unknown ==> out != Pending && after.view.certain)
  {
    ReadingIsSound(ttl, log, start, picks);
    hide *;
    ReadStep(ttl, log, ReadAll(ttl, log, start, picks), at);
    var after := Read(ReadAll(ttl, log, start, picks), log[at]).0;
    if after.view.certain {
      ReachedAgrees(ttl, log, at, after);
    }
  }

  // ----- a reader's clock -----

  /** The latest timestamp a reader has seen, of the messages that decode. */
  function Latest(log: seq<Record>, picks: seq<int>): Time
    requires forall k :: 0 <= k < |picks| ==> 0 <= picks[k] < |log|
  {
    if picks == [] then ZERO_TIME
    else
      var n := |picks| - 1;
      var r := log[picks[n]];
      if r.kind == Unknown then Latest(log, picks[..n]) else Max(Latest(log, picks[..n]), r.timestamp)
  }

  /** A reader's clock is the latest timestamp it has seen, across whatever holes: a gap makes it forget what
      it knew of the lease, and never the time. */
  lemma {:induction false} ReaderClock(ttl: Duration, log: seq<Record>, start: int, picks: seq<int>)
    requires Indexed(log) && Reading(log, start, picks)
    ensures var reader := ReadAll(ttl, log, start, picks);
            reader.view.clock == Latest(log, picks) && reader.view.lastOffset < reader.next
            && reader.next == if picks == [] then start else picks[|picks| - 1] + 1
  {
    if picks != [] {
      var n := |picks| - 1;
      var reader := ReadAll(ttl, log, start, picks[..n]);
      ReaderClock(ttl, log, start, picks[..n]);
      ApplyContract(if picks[n] > reader.next then Gap(reader.view) else reader.view, log[picks[n]]);
    }
  }
}
