/**
 The check at the far end (examples/heartbeat/main.go, summarize): a report on the heartbeats
 of a fenced workload. It compares only neighbouring epochs and looks at each record once; here
 is why that is enough to find every overlap.
 */
module Heartbeats {
  import opened Records

  /** One message on the heartbeat topic; `Noise` does not decode. */
  datatype Message = Noise(at: Time) | Beat(at: Time, epoch: int, cluster: string)

  datatype EpochSpan = EpochSpan(epoch: int, cluster: string, count: nat, first: Time, last: Time)

  datatype Report = Report(records: nat, stale: nat, epochs: seq<EpochSpan>, overlap: Duration, gap: Duration)

  // ----- what summarize computes -----

  function MaxEpoch(ms: seq<Message>): int {
    if ms == [] then -1
    else
      var m := ms[|ms| - 1];
      if m.Noise? then MaxEpoch(ms[..|ms| - 1]) else Max(MaxEpoch(ms[..|ms| - 1]), m.epoch)
  }

  /** Beats a fence that remembers the highest epoch would reject. */
  function Stale(ms: seq<Message>): nat {
    if ms == [] then 0
    else
      var front, m := ms[..|ms| - 1], ms[|ms| - 1];
      Stale(front) + if m.Beat? && m.epoch < MaxEpoch(front) then 1 else 0
  }

  function Extend(spans: map<int, EpochSpan>, m: Message): map<int, EpochSpan>
    requires m.Beat?
  {
    if m.epoch in spans then spans[m.epoch := spans[m.epoch].(last := m.at, count := spans[m.epoch].count + 1)]
    else spans[m.epoch := EpochSpan(m.epoch, m.cluster, 1, m.at, m.at)]
  }

  function Spans(ms: seq<Message>): map<int, EpochSpan> {
    if ms == [] then map[]
    else
      var m := ms[|ms| - 1];
      if m.Noise? then Spans(ms[..|ms| - 1]) else Extend(Spans(ms[..|ms| - 1]), m)
  }

  ghost predicate Ascending(es: seq<EpochSpan>) {
    forall i, j :: 0 <= i < j < |es| ==> es[i].epoch < es[j].epoch
  }

  /** es lists the spans in the order of their epochs. */
  ghost predicate Lists(es: seq<EpochSpan>, spans: map<int, EpochSpan>) {
    && (forall i :: 0 <= i < |es| ==> es[i].epoch in spans && es[i] == spans[es[i].epoch])
    && (forall e :: e in spans ==> exists i :: 0 <= i < |es| && es[i].epoch == e)
    && Ascending(es)
  }

  function Overlap(es: seq<EpochSpan>): Duration {
    if |es| <= 1 then 0
    else Max(Overlap(es[..|es| - 1]), es[|es| - 2].last - es[|es| - 1].first)
  }

  function Gap(es: seq<EpochSpan>): Duration {
    if |es| <= 1 then 0
    else Max(Gap(es[..|es| - 1]), es[|es| - 1].first - es[|es| - 2].last)
  }

  // ----- what the report means -----

  ghost predicate InOrder(ms: seq<Message>) {
    forall i, j :: 0 <= i < j < |ms| ==> ms[i].at <= ms[j].at
  }

  ghost predicate StrictlyInOrder(ms: seq<Message>) {
    forall i, j :: 0 <= i < j < |ms| ==> ms[i].at < ms[j].at
  }

  /** No beat of an epoch comes, on the broker's clock, after a beat of a later one. */
  ghost predicate Disjoint(ms: seq<Message>) {
    forall i, j :: 0 <= i < |ms| && 0 <= j < |ms| && ms[i].Beat? && ms[j].Beat? && ms[i].epoch < ms[j].epoch ==>
      ms[i].at <= ms[j].at
  }

  /** A span reaches from the earliest to the latest beat of its epoch, and both exist. */
  ghost predicate Covers(ms: seq<Message>, e: int, sp: EpochSpan) {
    && sp.epoch == e
    && (forall i :: 0 <= i < |ms| && ms[i].Beat? && ms[i].epoch == e ==> sp.first <= ms[i].at <= sp.last)
    && (exists i :: 0 <= i < |ms| && ms[i] == Beat(sp.first, e, sp.cluster))
    && (exists i :: 0 <= i < |ms| && ms[i].Beat? && ms[i].epoch == e && ms[i].at == sp.last)
  }

  lemma CoversGrows(ms: seq<Message>, m: Message, e: int, sp: EpochSpan)
    requires Covers(ms, e, sp) && (m.Beat? ==> m.epoch != e)
    ensures Covers(ms + [m], e, sp)
  {
    var i :| 0 <= i < |ms| && ms[i] == Beat(sp.first, e, sp.cluster);
    var j :| 0 <= j < |ms| && ms[j].Beat? && ms[j].epoch == e && ms[j].at == sp.last;
    assert (ms + [m])[i] == ms[i] && (ms + [m])[j] == ms[j];
  }

  lemma CoversExtends(ms: seq<Message>, m: Message, sp: EpochSpan)
    requires m.Beat? && Covers(ms, m.epoch, sp) && InOrder(ms + [m])
    ensures Covers(ms + [m], m.epoch, sp.(last := m.at, count := sp.count + 1))
  {
    var all := ms + [m];
    var i :| 0 <= i < |ms| && ms[i] == Beat(sp.first, m.epoch, sp.cluster);
    assert all[i] == ms[i] && all[|ms|] == m;
    forall k | 0 <= k < |ms| ensures all[k] == ms[k] && ms[k].at <= m.at {
      assert all[k].at <= all[|ms|].at;
    }
  }

  lemma {:induction false} SpansCover(ms: seq<Message>)
    requires InOrder(ms)
    ensures forall e :: e in Spans(ms) ==> Covers(ms, e, Spans(ms)[e])
    ensures forall i :: 0 <= i < |ms| && ms[i].Beat? ==> ms[i].epoch in Spans(ms)
  {
    if ms != [] {
      var n := |ms| - 1;
      var front, m := ms[..n], ms[n];
      assert front + [m] == ms;
      assert InOrder(front);
      SpansCover(front);
      forall e | e in Spans(ms) ensures Covers(ms, e, Spans(ms)[e]) {
        if m.Noise? || m.epoch != e {
          CoversGrows(front, m, e, Spans(front)[e]);
        } else if e in Spans(front) {
          CoversExtends(front, m, Spans(front)[e]);
        } else {
          assert ms[n] == Beat(m.at, e, m.cluster);
        }
      }
    }
  }

  /** Comparing neighbours is comparing all pairs. */
  lemma {:induction false} NeighboursSuffice(es: seq<EpochSpan>, i: int, j: int)
    requires forall k :: 0 <= k < |es| ==> es[k].first <= es[k].last
    requires Overlap(es) <= 0 && 0 <= i < j < |es|
    ensures es[i].last <= es[j].first
    decreases |es|
  {
    var n := |es| - 1;
    if j < n {
      NeighboursSuffice(es[..n], i, j);
    } else if i < n - 1 {
      NeighboursSuffice(es[..n], i, n - 1);
    }
  }

  lemma {:induction false} OverlapShows(es: seq<EpochSpan>)
    requires forall k :: 0 < k < |es| ==> es[k - 1].last <= es[k].first
    ensures Overlap(es) == 0
  {
    if |es| > 1 {
      var front := es[..|es| - 1];
      assert forall k :: 0 <= k < |front| ==> front[k] == es[k];
      OverlapShows(front);
    }
  }

  lemma {:induction false} OverlapIsNat(es: seq<EpochSpan>)
    ensures 0 <= Overlap(es) && 0 <= Gap(es)
  {
    if |es| > 1 {
      OverlapIsNat(es[..|es| - 1]);
    }
  }

  /** How long the epoch before the k-th outlasted its start; negative if it had stopped by then. */
  function Lateness(es: seq<EpochSpan>, k: int): Duration
    requires 0 < k < |es|
  {
    es[k - 1].last - es[k].first
  }

  lemma LatenessOfPrefix(es: seq<EpochSpan>, n: int, k: int)
    requires 0 < k < n <= |es|
    ensures Lateness(es[..n], k) == Lateness(es, k)
  {
  }

  /** The overlap and the gap reported are the largest between neighbours, or zero. */
  lemma {:induction false} MeasuresAreMaxima(es: seq<EpochSpan>)
    ensures forall k :: 0 < k < |es| ==> -Gap(es) <= Lateness(es, k) <= Overlap(es)
    ensures Overlap(es) == 0 || exists k :: 0 < k < |es| && Lateness(es, k) == Overlap(es)
    ensures Gap(es) == 0 || exists k :: 0 < k < |es| && -Lateness(es, k) == Gap(es)
  {
    if |es| > 1 {
      var n := |es| - 1;
      var front := es[..n];
      assert Overlap(es) == Max(Overlap(front), Lateness(es, n)) && Gap(es) == Max(Gap(front), -Lateness(es, n));
      hide Overlap, Gap, Lateness;
      MeasuresAreMaxima(front);
      forall k | 0 < k < n ensures Lateness(front, k) == Lateness(es, k) {
        LatenessOfPrefix(es, n, k);
      }
      if Overlap(es) == Overlap(front) && Overlap(front) != 0 {
        var k :| 0 < k < |front| && Lateness(front, k) == Overlap(front);
        assert Lateness(es, k) == Overlap(es);
      }
      if Gap(es) == Gap(front) && Gap(front) != 0 {
        var k :| 0 < k < |front| && -Lateness(front, k) == Gap(front);
        assert -Lateness(es, k) == Gap(es);
      }
    }
  }

  /** The beats of one epoch, in the order of the log. */
  function BeatsOf(ms: seq<Message>, e: int): (beats: seq<Message>)
    ensures forall m :: m in beats ==> m.Beat? && m.epoch == e && m in ms
  {
    if ms == [] then []
    else
      var m := ms[|ms| - 1];
      BeatsOf(ms[..|ms| - 1], e) + if m.Beat? && m.epoch == e then [m] else []
  }

  /** Per epoch: one span for each epoch that has beats and no other, counting its beats, naming the
      cluster of the first, and reaching from the first to the last. */
  lemma {:induction false} SpansSummarize(ms: seq<Message>, e: int)
    ensures e in Spans(ms) <==> BeatsOf(ms, e) != []
    ensures e in Spans(ms) ==>
              var beats, sp := BeatsOf(ms, e), Spans(ms)[e];
              beats[0] in beats && sp == EpochSpan(e, beats[0].cluster, |beats|, beats[0].at, beats[|beats| - 1].at)
  {
    if ms != [] {
      SpansSummarize(ms[..|ms| - 1], e);
    }
  }

  lemma DisjointShowsNoOverlap(ms: seq<Message>, es: seq<EpochSpan>)
    requires InOrder(ms) && Lists(es, Spans(ms)) && Disjoint(ms)
    ensures Overlap(es) == 0
  {
    SpansCover(ms);
    forall k | 0 < k < |es| ensures es[k - 1].last <= es[k].first {
      var a, b := es[k - 1], es[k];
      assert Covers(ms, a.epoch, a) && Covers(ms, b.epoch, b);
      var i :| 0 <= i < |ms| && ms[i].Beat? && ms[i].epoch == a.epoch && ms[i].at == a.last;
      var j :| 0 <= j < |ms| && ms[j] == Beat(b.first, b.epoch, b.cluster);
    }
    OverlapShows(es);
  }

  lemma BeatsInOrder(ms: seq<Message>, es: seq<EpochSpan>, a: int, b: int, i: int, j: int)
    requires 0 <= a < |es| && 0 <= b < |es| && 0 <= i < |ms| && 0 <= j < |ms| && ms[i].Beat? && ms[j].Beat?
    requires es[a].epoch == ms[i].epoch < ms[j].epoch == es[b].epoch && Ascending(es) && Overlap(es) == 0
    requires forall k :: 0 <= k < |es| ==> Covers(ms, es[k].epoch, es[k])
    ensures ms[i].at <= ms[j].at
  {
    forall k | 0 <= k < |es| ensures es[k].first <= es[k].last {
      assert Covers(ms, es[k].epoch, es[k]);
    }
    assert a < b;
    hide Overlap;
    NeighboursSuffice(es, a, b);
    assert Covers(ms, es[a].epoch, es[a]) && Covers(ms, es[b].epoch, es[b]);
  }

  lemma NoOverlapMeansDisjoint(ms: seq<Message>, es: seq<EpochSpan>)
    requires InOrder(ms) && Lists(es, Spans(ms)) && Overlap(es) == 0
    ensures Disjoint(ms)
  {
    SpansCover(ms);
    hide Covers, Overlap, InOrder, Spans, Ascending;
    forall i, j | 0 <= i < |ms| && 0 <= j < |ms| && ms[i].Beat? && ms[j].Beat? && ms[i].epoch < ms[j].epoch
      ensures ms[i].at <= ms[j].at
    {
      var a :| 0 <= a < |es| && es[a].epoch == ms[i].epoch;
      var b :| 0 <= b < |es| && es[b].epoch == ms[j].epoch;
      BeatsInOrder(ms, es, a, b, i, j);
    }
  }

  /** The report shows no overlap exactly when there is none between any two epochs. */
  lemma OverlapIsExact(ms: seq<Message>, es: seq<EpochSpan>)
    requires InOrder(ms) && Lists(es, Spans(ms))
    ensures Overlap(es) == 0 <==> Disjoint(ms)
  {
    if Disjoint(ms) {
      DisjointShowsNoOverlap(ms, es);
    }
    if Overlap(es) == 0 {
      NoOverlapMeansDisjoint(ms, es);
    }
  }

  /** The highest epoch so far is an upper bound, and is one of a beat or the initial -1. */
  lemma {:induction false} MaxEpochIsMax(ms: seq<Message>)
    ensures -1 <= MaxEpoch(ms)
    ensures forall i :: 0 <= i < |ms| && ms[i].Beat? ==> ms[i].epoch <= MaxEpoch(ms)
    ensures MaxEpoch(ms) == -1 || exists i :: 0 <= i < |ms| && ms[i].Beat? && ms[i].epoch == MaxEpoch(ms)
  {
    if ms != [] {
      var n := |ms| - 1;
      var front := ms[..n];
      MaxEpochIsMax(front);
      assert forall i :: 0 <= i < n ==> front[i] == ms[i];
      if MaxEpoch(ms) == MaxEpoch(front) && MaxEpoch(front) != -1 {
        var i :| 0 <= i < |front| && front[i].Beat? && front[i].epoch == MaxEpoch(front);
        assert ms[i].Beat? && ms[i].epoch == MaxEpoch(ms);
      }
    }
  }

  /** Nothing fenced means the epochs never step back. */
  lemma {:induction false} NoStaleMeansMonotone(ms: seq<Message>, i: int, j: int)
    requires Stale(ms) == 0 && 0 <= i < j < |ms| && ms[i].Beat? && ms[j].Beat?
    ensures ms[i].epoch <= ms[j].epoch
    decreases |ms|
  {
    var n := |ms| - 1;
    var front := ms[..n];
    if j < n {
      NoStaleMeansMonotone(front, i, j);
    } else {
      MaxEpochIsMax(front);
      assert front[i] == ms[i];
    }
  }

  /** The beat at i comes after one of a higher epoch, or has no genuine epoch at all. */
  ghost predicate Fenced(ms: seq<Message>, i: int) {
    0 <= i < |ms| && ms[i].Beat?
    && (ms[i].epoch < -1 || exists j :: 0 <= j < i && ms[j].Beat? && ms[i].epoch < ms[j].epoch)
  }

  lemma FencedLast(ms: seq<Message>)
    requires ms != []
    ensures var n := |ms| - 1; Fenced(ms, n) <==> ms[n].Beat? && ms[n].epoch < MaxEpoch(ms[..n])
    ensures forall i :: 0 <= i < |ms| - 1 ==> Fenced(ms[..|ms| - 1], i) == Fenced(ms, i)
  {
    var n := |ms| - 1;
    MaxEpochIsMax(ms[..n]);
    assert forall i :: 0 <= i < n ==> ms[..n][i] == ms[i];
  }

  /** The stale count is the number of beats that come after one of a higher epoch or have no genuine one. */
  lemma {:induction false} StaleCounts(ms: seq<Message>)
    ensures Stale(ms) == |set i | 0 <= i < |ms| && Fenced(ms, i)|
  {
    if ms != [] {
      var n := |ms| - 1;
      StaleCounts(ms[..n]);
      FencedLast(ms);
      hide Fenced;
      var before, all := set i | 0 <= i < n && Fenced(ms[..n], i), set i | 0 <= i < |ms| && Fenced(ms, i);
      assert all == if Fenced(ms, n) then before + {n} else before;
    } else {
      assert (set i | 0 <= i < |ms| && Fenced(ms, i)) == {};
    }
  }

  /** If the fence rejected nothing, no two epochs overlapped. */
  lemma NoStaleNoOverlap(ms: seq<Message>, es: seq<EpochSpan>)
    requires InOrder(ms) && Lists(es, Spans(ms)) && Stale(ms) == 0
    ensures Overlap(es) == 0
  {
    forall i, j | 0 <= i < |ms| && 0 <= j < |ms| && ms[i].Beat? && ms[j].Beat? && ms[i].epoch < ms[j].epoch
      ensures ms[i].at <= ms[j].at
    {
      if j < i {
        NoStaleMeansMonotone(ms, j, i);
      }
    }
    OverlapIsExact(ms, es);
  }

  /** No two beats of one instant stand in falling order of epoch. */
  ghost predicate TiesInOrder(ms: seq<Message>) {
    forall i, j :: 0 <= i < j < |ms| && ms[i].Beat? && ms[j].Beat? && ms[i].at == ms[j].at ==> ms[i].epoch <= ms[j].epoch
  }

  /** The fence starts at -1. */
  ghost predicate Genuine(ms: seq<Message>) {
    forall i :: 0 <= i < |ms| && ms[i].Beat? ==> -1 <= ms[i].epoch
  }

  lemma {:induction false} DisjointNoStale(ms: seq<Message>)
    requires InOrder(ms) && Disjoint(ms) && TiesInOrder(ms) && Genuine(ms)
    ensures Stale(ms) == 0
  {
    if ms != [] {
      var n := |ms| - 1;
      var front, m := ms[..n], ms[n];
      assert forall i :: 0 <= i < n ==> front[i] == ms[i];
      assert InOrder(front) && Disjoint(front) && TiesInOrder(front) && Genuine(front);
      DisjointNoStale(front);
      MaxEpochIsMax(front);
      forall i | 0 <= i < n && ms[i].Beat? && m.Beat? ensures ms[i].epoch <= m.epoch {
        assert ms[i].at <= ms[n].at;
      }
    }
  }

  lemma {:induction false} NoStaleMeansGenuine(ms: seq<Message>)
    requires Stale(ms) == 0
    ensures Genuine(ms)
  {
    if ms != [] {
      var n := |ms| - 1;
      NoStaleMeansGenuine(ms[..n]);
      MaxEpochIsMax(ms[..n]);
      assert forall i :: 0 <= i < n ==> ms[..n][i] == ms[i];
    }
  }

  /** What the two checks have in common and what not: the fence rejects nothing exactly when no two epochs
      overlap, no two beats of one instant stand in falling order of epoch, and no epoch lies below -1. */
  lemma StaleAndOverlapAgree(ms: seq<Message>, es: seq<EpochSpan>)
    requires InOrder(ms) && Lists(es, Spans(ms))
    ensures Stale(ms) == 0 <==> Overlap(es) == 0 && TiesInOrder(ms) && Genuine(ms)
  {
    OverlapIsExact(ms, es);
    if Stale(ms) == 0 {
      NoStaleNoOverlap(ms, es);
      NoStaleMeansGenuine(ms);
      forall i, j | 0 <= i < j < |ms| && ms[i].Beat? && ms[j].Beat? ensures ms[i].epoch <= ms[j].epoch {
        NoStaleMeansMonotone(ms, i, j);
      }
    } else if Overlap(es) == 0 && TiesInOrder(ms) && Genuine(ms) {
      DisjointNoStale(ms);
    }
  }

  /** With distinct timestamps the two checks are one. */
  lemma StrictlyOneCheck(ms: seq<Message>, es: seq<EpochSpan>)
    requires StrictlyInOrder(ms) && Genuine(ms) && Lists(es, Spans(ms))
    ensures Stale(ms) == 0 <==> Overlap(es) == 0
  {
    StaleAndOverlapAgree(ms, es);
  }

  /** Two beats in the same instant, in the wrong order, are
      stale to the fence and no overlap to the clock. */
  lemma TiesTellThemApart()
    ensures var ms := [Beat(5, 1, "b"), Beat(5, 0, "a")];
            InOrder(ms) && Stale(ms) == 1 && Disjoint(ms)
  {
    var ms := [Beat(5, 1, "b"), Beat(5, 0, "a")];
    assert ms[..1] == [Beat(5, 1, "b")];
    assert MaxEpoch(ms[..1]) == 1 && Stale(ms[..1]) == 0 by {
      assert ms[..1][..0] == [];
    }
  }

  // ----- summarize itself -----

  lemma {:induction false} SpansAreKeyed(ms: seq<Message>)
    ensures forall e :: e in Spans(ms) ==> Spans(ms)[e].epoch == e
  {
    if ms != [] {
      SpansAreKeyed(ms[..|ms| - 1]);
    }
  }

  lemma InsertedAscends(es: seq<EpochSpan>, k: int, sp: EpochSpan)
    requires Ascending(es) && 0 <= k <= |es|
    requires (k > 0 ==> es[k - 1].epoch < sp.epoch) && (k < |es| ==> sp.epoch < es[k].epoch)
    ensures Ascending(es[..k] + [sp] + es[k..])
  {
    var r := es[..k] + [sp] + es[k..];
    forall i, j | 0 <= i < j < |r| ensures r[i].epoch < r[j].epoch {
      assert i < k ==> r[i] == es[i];
      assert i > k ==> r[i] == es[i - 1];
      assert j < k ==> r[j] == es[j];
      assert j > k ==> r[j] == es[j - 1];
    }
  }

  lemma InsertedMembers(es: seq<EpochSpan>, k: int, sp: EpochSpan)
    requires 0 <= k <= |es|
    ensures forall x :: x in es[..k] + [sp] + es[k..] <==> x in es || x == sp
  {
    assert es == es[..k] + es[k..];
  }

  /** es with sp put where it belongs. */
  method Insert(es: seq<EpochSpan>, sp: EpochSpan) returns (r: seq<EpochSpan>)
    requires Ascending(es) && forall x :: x in es ==> x.epoch != sp.epoch
    ensures Ascending(r)
    ensures forall x :: x in r <==> x in es || x == sp
  {
    var k := |es|;
    while k > 0 && es[k - 1].epoch > sp.epoch
      invariant 0 <= k <= |es|
      invariant k < |es| ==> sp.epoch < es[k].epoch
    {
      k := k - 1;
    }
    r := es[..k] + [sp] + es[k..];
    hide Ascending;
    assert k > 0 ==> es[k - 1] in es;
    InsertedAscends(es, k, sp);
    InsertedMembers(es, k, sp);
  }

  /** The spans, taken from the map in no particular order, sorted by epoch. */
  method SortedSpans(spans: map<int, EpochSpan>) returns (es: seq<EpochSpan>)
    requires forall e :: e in spans ==> spans[e].epoch == e
    ensures Lists(es, spans)
  {
    es := [];
    var rest := spans.Keys;
    while exists e :: e in rest
      invariant rest <= spans.Keys
      invariant Ascending(es)
      invariant forall x :: x in es ==> x.epoch in spans && x.epoch !in rest && x == spans[x.epoch]
      invariant forall e :: e in spans && e !in rest ==> spans[e] in es
      decreases rest
    {
      var e :| e in rest;
      es := Insert(es, spans[e]);
      rest := rest - {e};
    }
    forall e | e in spans ensures exists i :: 0 <= i < |es| && es[i].epoch == e {
      assert spans[e] in es;
    }
  }

  /** The one pass over the records. */
  method Tally(ms: seq<Message>) returns (stale: nat, spans: map<int, EpochSpan>)
    ensures stale == Stale(ms) && spans == Spans(ms)
  {
    stale, spans := 0, map[];
    var maxEpoch := -1;
    assert ms[..0] == [];
    for k := 0 to |ms|
      invariant maxEpoch == MaxEpoch(ms[..k]) && stale == Stale(ms[..k]) && spans == Spans(ms[..k])
    {
      assert ms[..k + 1][..k] == ms[..k];
      var m := ms[k];
      if m.Beat? {
        if m.epoch < maxEpoch {
          stale := stale + 1;
        }
        maxEpoch := Max(maxEpoch, m.epoch);
        if m.epoch !in spans {
          spans := spans[m.epoch := EpochSpan(m.epoch, m.cluster, 0, m.at, m.at)];
        }
        var sp := spans[m.epoch];
        spans := spans[m.epoch := sp.(last := m.at, count := sp.count + 1)];
      }
    }
    assert ms[..|ms|] == ms;
  }

  /** The one pass over the epochs. */
  method Measure(es: seq<EpochSpan>) returns (overlap: Duration, gap: Duration)
    ensures overlap == Overlap(es) && gap == Gap(es)
  {
    overlap, gap := 0, 0;
    var i := 1;
    while i < |es|
      invariant 1 <= i && (i <= |es| || |es| == 0)
      invariant overlap == Overlap(es[..Min(i, |es|)]) && gap == Gap(es[..Min(i, |es|)])
    {
      assert es[..i + 1][..i] == es[..i];
      OverlapIsNat(es[..i]);
      var d := es[i - 1].last - es[i].first;
      if d > 0 {
        overlap := Max(overlap, d);
      } else {
        gap := Max(gap, -d);
      }
      i := i + 1;
    }
    assert es[..|es|] == es;
  }

  method Summarize(ms: seq<Message>) returns (rep: Report)
    ensures rep.records == |ms| && rep.stale == Stale(ms)
    ensures Lists(rep.epochs, Spans(ms))
    ensures rep.overlap == Overlap(rep.epochs) && rep.gap == Gap(rep.epochs)
    ensures InOrder(ms) ==> (rep.overlap == 0 <==> Disjoint(ms))
  {
    var stale, spans := Tally(ms);
    SpansAreKeyed(ms);
    var es := SortedSpans(spans);
    var overlap, gap := Measure(es);
    rep := Report(|ms|, stale, es, overlap, gap);
    if InOrder(ms) {
      OverlapIsExact(ms, es);
    }
  }
}
