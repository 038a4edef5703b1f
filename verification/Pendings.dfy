/**
 What an uncertain view remembers (lease/view.go: pending, applyUncertain, prunePending), for
 any records with any timestamps: exactly the valid records since the last gap that are no
 older than two TTLs, none of which an anchor could have been missed for.
 */
module Pendings {
  import opened Records
  import opened LeaseFold
  import opened Views

  /** The valid records of a segment of the log with a timestamp not before h. */
  function Keep(ttl: Duration, segment: seq<Record>, h: Time): seq<Record> {
    if segment == [] then []
    else
      var n := |segment| - 1;
      var r := segment[n];
      Keep(ttl, segment[..n], h) + if r.kind != Unknown && ValidTtl(ttl, r) && h <= r.timestamp then [r] else []
  }

  /** The records as a view whose clock is c sees them. */
  function ClampAll(c: Time, rs: seq<Record>): (seen: seq<Record>)
    ensures |seen| == |rs|
  {
    if rs == [] then []
    else
      var front := ClampAll(c, rs[..|rs| - 1]);
      front + [Clamp(if front == [] then c else front[|front| - 1].timestamp, rs[|rs| - 1])]
  }

  ghost predicate Ordered(rs: seq<Record>) {
    forall i, j :: 0 <= i < j < |rs| ==> rs[i].timestamp <= rs[j].timestamp
  }

  lemma KeepAppend(ttl: Duration, segment: seq<Record>, r: Record, h: Time)
    ensures Keep(ttl, segment + [r], h)
         == Keep(ttl, segment, h) + if r.kind != Unknown && ValidTtl(ttl, r) && h <= r.timestamp then [r] else []
  {
    assert (segment + [r])[..|segment|] == segment;
  }

  /** Keep is order-preserving, and holds a record exactly when the segment does and it is
      valid and recent. */
  lemma {:induction false} KeepMembers(ttl: Duration, segment: seq<Record>, h: Time)
    ensures forall r :: r in Keep(ttl, segment, h) <==> r in segment && r.kind != Unknown && ValidTtl(ttl, r) && h <= r.timestamp
  {
    if segment != [] {
      var n := |segment| - 1;
      KeepMembers(ttl, segment[..n], h);
      assert segment == segment[..n] + [segment[n]];
    }
  }

  lemma {:induction false} KeepOrdered(ttl: Duration, segment: seq<Record>, h: Time)
    requires Ordered(segment)
    ensures Ordered(Keep(ttl, segment, h))
  {
    if segment != [] {
      var n := |segment| - 1;
      KeepOrdered(ttl, segment[..n], h);
      KeepMembers(ttl, segment[..n], h);
      var k := Keep(ttl, segment[..n], h);
      forall i | 0 <= i < |k| ensures k[i].timestamp <= segment[n].timestamp {
        assert k[i] in k;
      }
    }
  }

  lemma {:induction false} DropOldAppend(rs: seq<Record>, r: Record, h: Time)
    ensures DropOld(rs + [r], h) == if DropOld(rs, h) != [] then DropOld(rs, h) + [r] else DropOld([r], h)
  {
    if rs == [] {
      assert rs + [r] == [r];
    } else if rs[0].timestamp < h {
      assert (rs + [r])[1..] == rs[1..] + [r];
      DropOldAppend(rs[1..], r, h);
    }
  }

  /** Pruning from the front is exact because what is pending is in order. */
  lemma {:induction false} DropOldIsKeep(ttl: Duration, segment: seq<Record>, h: Time, h': Time)
    requires Ordered(segment) && h <= h'
    ensures DropOld(Keep(ttl, segment, h), h') == Keep(ttl, segment, h')
  {
    if segment != [] {
      var n := |segment| - 1;
      var init, r := segment[..n], segment[n];
      DropOldIsKeep(ttl, init, h, h');
      KeepMembers(ttl, init, h');
      if Keep(ttl, init, h') != [] {
        assert Keep(ttl, init, h')[0] in init;
      }
      var kept := Keep(ttl, init, h);
      if r.kind != Unknown && ValidTtl(ttl, r) && h <= r.timestamp {
        DropOldAppend(kept, r, h');
        assert Keep(ttl, segment, h) == kept + [r];
        assert DropOld([r], h') == if r.timestamp < h' then [] else [r];
      } else {
        assert Keep(ttl, segment, h) == kept;
        assert Keep(ttl, segment, h') == Keep(ttl, init, h');
      }
    }
  }

  /** Everything before and after a kept record is the valid part of everything before and after it in
      the segment. */
  lemma {:induction false} KeepFrom(ttl: Duration, segment: seq<Record>, h: Time, i: int) returns (k: int)
    requires 0 <= i < |Keep(ttl, segment, h)|
    ensures 0 <= k < |segment| && Keep(ttl, segment, h)[i] == segment[k]
    ensures segment[k].kind != Unknown && ValidTtl(ttl, segment[k]) && h <= segment[k].timestamp
    ensures Keep(ttl, segment, h)[i + 1..] == Keep(ttl, segment[k + 1..], h)
    ensures Keep(ttl, segment, h)[..i] == Keep(ttl, segment[..k], h)
  {
    var n := |segment| - 1;
    var front := Keep(ttl, segment[..n], h);
    if i == |front| {
      k := n;
    } else {
      k := KeepFrom(ttl, segment[..n], h, i);
      assert segment[..n][..k] == segment[..k];
      assert segment[k + 1..][..n - k - 1] == segment[..n][k + 1..];
      assert Keep(ttl, segment, h)[i + 1..] == front[i + 1..] + Keep(ttl, segment, h)[|front|..];
    }
  }

  // ----- pending is exact -----

  /** No pending record could have served as an anchor for a later one. */
  ghost predicate Unanchored(rs: seq<Record>) {
    forall i, j :: 0 <= i < j < |rs| && rs[j].kind != Claim ==> !Anchors(rs[i], rs[j].Term().0, rs[j].Term().1)
  }

  /** The start of a segment: a fresh view, or one just after a Gap. */
  ghost predicate AtGap(v: ViewState) {
    !v.certain && !v.seen && v.pending == []
  }

  lemma {:induction false} UnanchoredSurvivesDropOld(rs: seq<Record>, h: Time)
    requires Unanchored(rs)
    ensures Unanchored(DropOld(rs, h))
  {
    if rs != [] && rs[0].timestamp < h {
      UnanchoredSurvivesDropOld(rs[1..], h);
    }
  }

  lemma {:induction false} ClampAllShape(c: Time, rs: seq<Record>)
    ensures |ClampAll(c, rs)| == |rs| && Ordered(ClampAll(c, rs))
    ensures forall i :: 0 <= i < |rs| ==>
              c <= ClampAll(c, rs)[i].timestamp && rs[i].(timestamp := ClampAll(c, rs)[i].timestamp) == ClampAll(c, rs)[i]
  {
    if rs != [] {
      ClampAllShape(c, rs[..|rs| - 1]);
    }
  }

  /** What Apply does to a view that stays uncertain. */
  lemma StaysUncertain(u: ViewState, r: Record)
    requires !u.certain && Apply(u, r).ok && !Apply(u, r).view.certain
    ensures var w, c := Apply(u, r).view, Clamp(u.clock, r);
            w == u.(clock := c.timestamp, lastOffset := r.offset, seen := true,
                    pending := DropOld(u.pending + if ValidTtl(u.ttl, c) then [c] else [], c.timestamp - 2 * u.ttl))
            && (c.kind == Claim || FindAnchor(u.pending, c.Term().0, c.Term().1) == |u.pending|)
            && u.clock <= c.timestamp && c.kind != Unknown
  {
    assert u.pending + [] == u.pending;
  }

  lemma UnanchoredAppend(rs: seq<Record>, c: Record)
    requires Unanchored(rs)
    requires c.kind == Claim || FindAnchor(rs, c.Term().0, c.Term().1) == |rs|
    ensures Unanchored(rs + [c])
  {
  }

  lemma KeepGrown(ttl: Duration, segment: seq<Record>, c: Record, clock: Time)
    requires 0 < ttl && clock <= c.timestamp && c.kind != Unknown && Ordered(segment + [c])
    ensures DropOld(Keep(ttl, segment, clock - 2 * ttl) + if ValidTtl(ttl, c) then [c] else [], c.timestamp - 2 * ttl)
         == Keep(ttl, segment + [c], c.timestamp - 2 * ttl)
  {
    KeepAppend(ttl, segment, c, clock - 2 * ttl);
    DropOldIsKeep(ttl, segment + [c], clock - 2 * ttl, c.timestamp - 2 * ttl);
  }

  /** One record more on a view that stays uncertain. */
  lemma PendingStep(u: ViewState, segment: seq<Record>, r: Record)
    requires !u.certain && 0 < u.ttl && u.pending == Keep(u.ttl, segment, u.clock - 2 * u.ttl)
    requires Apply(u, r).ok && !Apply(u, r).view.certain
    requires Ordered(segment + [Clamp(u.clock, r)])
    ensures Apply(u, r).view.pending
         == Keep(u.ttl, segment + [Clamp(u.clock, r)], Apply(u, r).view.clock - 2 * u.ttl)
  {
    hide *;
    StaysUncertain(u, r);
    KeepGrown(u.ttl, segment, Clamp(u.clock, r), u.clock);
  }

  lemma UnanchoredStep(u: ViewState, r: Record)
    requires !u.certain && Unanchored(u.pending)
    requires Apply(u, r).ok && !Apply(u, r).view.certain
    ensures Unanchored(Apply(u, r).view.pending)
  {
    var c := Clamp(u.clock, r);
    StaysUncertain(u, r);
    UnanchoredAppend(u.pending, c);
    assert u.pending + [] == u.pending;
    UnanchoredSurvivesDropOld(u.pending + if ValidTtl(u.ttl, c) then [c] else [], c.timestamp - 2 * u.ttl);
  }

  lemma ApplyAllAppend(v: ViewState, rs: seq<Record>, r: Record)
    ensures ApplyAll(v, rs + [r]) == Apply(ApplyAll(v, rs), r).view
  {
    assert (rs + [r])[..|rs|] == rs;
  }

  lemma ClampAllAppend(c: Time, rs: seq<Record>, r: Record)
    ensures ClampAll(c, rs + [r]) == ClampAll(c, rs) + [Clamp(if rs == [] then c else ClampAll(c, rs)[|rs| - 1].timestamp, r)]
  {
    assert (rs + [r])[..|rs|] == rs;
  }

  lemma FeedablePrefix(v: ViewState, rs: seq<Record>, r: Record)
    requires Feedable(v, rs + [r])
    ensures Feedable(v, rs) && r.kind != Unknown
    ensures (if rs == [] then v.lastOffset else rs[|rs| - 1].offset) < r.offset
  {
    var all := rs + [r];
    assert forall i :: 0 <= i < |rs| ==> rs[i] == all[i];
    assert all[|rs|] == r;
    if rs != [] {
      assert all[|rs| - 1].offset < all[|rs|].offset;
    }
  }

  lemma {:induction false} ClockSoFar(v: ViewState, rs: seq<Record>)
    requires Feedable(v, rs)
    ensures var w, seen := ApplyAll(v, rs), ClampAll(v.clock, rs);
            w.ttl == v.ttl && w.seen == (v.seen || rs != [])
            && w.lastOffset == (if rs == [] then v.lastOffset else rs[|rs| - 1].offset)
            && w.clock == (if rs == [] then v.clock else seen[|rs| - 1].timestamp)
  {
    if rs != [] {
      var front, r := rs[..|rs| - 1], rs[|rs| - 1];
      hide Apply, ApplyAll, ClampAll, Feedable, Clamp;
      assert front + [r] == rs;
      FeedablePrefix(v, front, r);
      ClockSoFar(v, front);
      ApplyAllAppend(v, front, r);
      ClampAllAppend(v.clock, front, r);
      ApplyContract(ApplyAll(v, front), r);
    }
  }

  /** What an uncertain view u, fed the clamped records `segment` since the gap, remembers. */
  ghost predicate Remembers(u: ViewState, segment: seq<Record>) {
    && u.pending == Keep(u.ttl, segment, u.clock - 2 * u.ttl)
    && Ordered(u.pending) && Unanchored(u.pending)
  }

  lemma RemembersStep(u: ViewState, segment: seq<Record>, r: Record)
    requires !u.certain && 0 < u.ttl && Remembers(u, segment)
    requires Apply(u, r).ok && !Apply(u, r).view.certain
    requires Ordered(segment + [Clamp(u.clock, r)])
    ensures Remembers(Apply(u, r).view, segment + [Clamp(u.clock, r)])
  {
    hide Apply, Keep, Ordered, Unanchored, Clamp;
    ApplyContract(u, r);
    PendingStep(u, segment, r);
    UnanchoredStep(u, r);
    KeepOrdered(u.ttl, segment + [Clamp(u.clock, r)], Apply(u, r).view.clock - 2 * u.ttl);
  }

  /** The memory of an uncertain view is a function of the records since the gap: pending is
      their valid, recent part, in order, and holds no anchored pair. */
  lemma {:induction false} PendingIsExact(v: ViewState, rs: seq<Record>)
    requires AtGap(v) && 0 < v.ttl && Feedable(v, rs)
    requires !ApplyAll(v, rs).certain
    ensures Remembers(ApplyAll(v, rs), ClampAll(v.clock, rs))
  {
    if rs != [] {
      var front, r := rs[..|rs| - 1], rs[|rs| - 1];
      hide Apply, ApplyAll, ClampAll, Feedable, Clamp, Remembers;
      assert front + [r] == rs;
      FeedablePrefix(v, front, r);
      ApplyAllAppend(v, front, r);
      ClockSoFar(v, front);
      ApplyContract(ApplyAll(v, front), r);
      PendingIsExact(v, front);
      ClampAllAppend(v.clock, front, r);
      ClampAllShape(v.clock, rs);
      RemembersStep(ApplyAll(v, front), ClampAll(v.clock, front), r);
    }
  }

  lemma KeepsAnchor(ttl: Duration, segment: seq<Record>, h: Time, i: int, r: Record)
    requires 0 <= i < |segment| && segment[i] == r.(timestamp := segment[i].timestamp)
    requires r.Asserts() && ValidTtl(ttl, r) && h <= segment[i].timestamp
    ensures segment[i] in Keep(ttl, segment, h) && Anchors(segment[i], r.Term().0, r.Term().1)
  {
    KeepMembers(ttl, segment, h);
  }

  lemma AnchoredApply(u: ViewState, r: Record, p: Record)
    requires Apply(u, r).ok && r.kind != Claim
    requires p in u.pending && Anchors(p, r.Term().0, r.Term().1)
    ensures Apply(u, r).view.certain
  {
    if !Apply(u, r).view.certain {
      StaysUncertain(u, r);
    }
  }

  lemma AnchorFires(u: ViewState, segment: seq<Record>, i: int, p: Record, r: Record)
    requires 0 < u.ttl && (!u.certain ==> Remembers(u, segment)) && Apply(u, r).ok
    requires 0 <= i < |segment| && segment[i] == p.(timestamp := segment[i].timestamp)
    requires p.Asserts() && ValidTtl(u.ttl, p) && u.clock <= segment[i].timestamp + 2 * u.ttl
    requires r.kind in {Renew, Release} && r.Term() == p.Term()
    ensures Apply(u, r).view.certain
  {
    if u.certain {
      ApplyContract(u, r);
    } else {
      KeepsAnchor(u.ttl, segment, u.clock - 2 * u.ttl, i, p);
      AnchoredApply(u, r, segment[i]);
    }
  }

  /** The anchor rule always fires when it should: a claim or renew followed, with no gap in
      between, by a renew or release of its own term leaves the view certain for good, if the
      clock just before the second had not run more than two TTLs past the first. */
  lemma AnchorsAreFound(v: ViewState, rs: seq<Record>, i: int, r: Record, later: seq<Record>)
    requires AtGap(v) && 0 < v.ttl && Feedable(v, rs)
    requires 0 <= i < |rs| && rs[i].Asserts() && ValidTtl(v.ttl, rs[i])
    requires r.kind in {Renew, Release} && r.Term() == rs[i].Term()
    requires rs[|rs| - 1].offset < r.offset
    requires ApplyAll(v, rs).clock <= ClampAll(v.clock, rs)[i].timestamp + 2 * v.ttl
    ensures ApplyAll(Apply(ApplyAll(v, rs), r).view, later).certain
  {
    hide Apply, ApplyAll, ClampAll, Remembers, Ordered;
    var u := ApplyAll(v, rs);
    ClockSoFar(v, rs);
    ApplyContract(u, r);
    ClampAllShape(v.clock, rs);
    if !u.certain {
      PendingIsExact(v, rs);
    }
    AnchorFires(u, ClampAll(v.clock, rs), i, rs[i], r);
    StaysCertain(Apply(u, r).view, later);
  }

  // ----- an anchor refolds the raw log -----

  /** Replaying only what was kept is replaying everything, if nothing was too old to keep. */
  lemma {:induction false} ReplayKept(ttl: Duration, s: State, rs: seq<Record>, h: Time)
    requires forall r :: r in rs ==> h <= r.timestamp
    ensures Replay(ttl, s, Keep(ttl, rs, h)) == Replay(ttl, s, rs)
  {
    if rs != [] {
      var n := |rs| - 1;
      var kept := Keep(ttl, rs[..n], h);
      assert rs[n] in rs;
      ReplayKept(ttl, s, rs[..n], h);
      assert (kept + [rs[n]])[..|kept|] == kept;
      assert kept + [] == kept;
    }
  }

  /** What Apply does to a view that settles by an anchor. */
  lemma SettlesByAnchor(u: ViewState, r: Record)
    requires !u.certain && Apply(u, r).ok && Apply(u, r).view.certain && !Silent(u, Clamp(u.clock, r))
    ensures var c, i := Clamp(u.clock, r), FindAnchor(u.pending, r.Term().0, r.Term().1);
            r.kind in {Renew, Release} && i < |u.pending| && Anchors(u.pending[i], r.Term().0, r.Term().1)
            && var p := u.pending[i];
               var s := Replay(u.ttl, State(r.Term().0, r.Term().1, p.timestamp + p.ttl), u.pending[i + 1..]);
               (Apply(u, r).view.state, Apply(u, r).outcome) == Fold(u.ttl, s, c)
  {
  }

  /** From the record at offset k of an ordered segment on, what was kept replays like everything. */
  lemma ReplaySuffix(ttl: Duration, s: State, segment: seq<Record>, h: Time, k: int)
    requires Ordered(segment) && 0 <= k < |segment| && h <= segment[k].timestamp
    ensures Replay(ttl, s, Keep(ttl, segment[k + 1..], h)) == Replay(ttl, s, segment[k + 1..])
  {
    forall r | r in segment[k + 1..] ensures h <= r.timestamp {
      var j :| k + 1 <= j < |segment| && segment[j] == r;
    }
    ReplayKept(ttl, s, segment[k + 1..], h);
  }

  /** The record at offset k of what v read vouches for the term of r and is recent enough to be
      remembered. */
  ghost predicate Vouches(v: ViewState, rs: seq<Record>, r: Record, k: int)
    requires 0 <= k < |rs|
  {
    rs[k].Asserts() && 0 < rs[k].ttl <= v.ttl && rs[k].Term() == r.Term()
    && ApplyAll(v, rs).clock <= ClampAll(v.clock, rs)[k].timestamp + 2 * v.ttl
  }

  ghost predicate FirstAnchor(v: ViewState, rs: seq<Record>, r: Record, k: int) {
    0 <= k < |rs| && Vouches(v, rs, r, k) && r.kind in {Renew, Release}
    && forall j :: 0 <= j < k ==> !Vouches(v, rs, r, j)
  }

  lemma FirstIsFirst(v: ViewState, rs: seq<Record>, r: Record, h: Time, i: int, k: int)
    requires var u, seen := ApplyAll(v, rs), ClampAll(v.clock, rs);
             u.ttl == v.ttl && h == u.clock - 2 * v.ttl && r.kind in {Renew, Release} && 0 <= k < |rs|
             && u.pending == Keep(v.ttl, seen, h) && i == FindAnchor(u.pending, r.Term().0, r.Term().1) && i < |u.pending|
             && u.pending[i] == seen[k] && seen[k].kind != Unknown && ValidTtl(v.ttl, seen[k]) && h <= seen[k].timestamp
             && u.pending[..i] == Keep(v.ttl, seen[..k], h)
    ensures FirstAnchor(v, rs, r, k)
  {
    var seen, pending := ClampAll(v.clock, rs), ApplyAll(v, rs).pending;
    ClampAllShape(v.clock, rs);
    hide ApplyAll, ClampAll, Keep;
    KeepMembers(v.ttl, seen[..k], h);
    assert forall x :: x in pending[..i] ==> !Anchors(x, r.Term().0, r.Term().1);
    forall j | 0 <= j < k ensures !Vouches(v, rs, r, j) {
      assert seen[j] in seen[..k];
      assert seen[j] in Keep(v.ttl, seen[..k], h) ==> !Anchors(seen[j], r.Term().0, r.Term().1);
    }
  }

  /** A view that settles by an anchor is in the state that folding the raw records from the anchor on
      gives, with whatever timestamps, as the view clamps them: what it dropped and what it never kept
      makes no difference. */
  lemma AnchorRefolds(v: ViewState, rs: seq<Record>, r: Record) returns (k: int)
    requires AtGap(v) && 0 < v.ttl && Feedable(v, rs + [r]) && !ApplyAll(v, rs).certain
    requires Apply(ApplyAll(v, rs), r).view.certain && !Silent(ApplyAll(v, rs), Clamp(ApplyAll(v, rs).clock, r))
    ensures FirstAnchor(v, rs, r, k)
    ensures var u, seen := ApplyAll(v, rs), ClampAll(v.clock, rs);
            var s := Replay(v.ttl, State(r.Term().0, r.Term().1, seen[k].timestamp + rs[k].ttl), seen[k + 1..]);
               (Apply(u, r).view.state, Apply(u, r).outcome) == Fold(v.ttl, s, Clamp(u.clock, r))
  {
    hide Apply, ApplyAll, ClampAll, Keep, Clamp, FindAnchor;
    var u, seen := ApplyAll(v, rs), ClampAll(v.clock, rs);
    FeedablePrefix(v, rs, r);
    ClockSoFar(v, rs);
    ApplyContract(u, r);
    PendingIsExact(v, rs);
    ClampAllShape(v.clock, rs);
    SettlesByAnchor(u, r);
    var i := FindAnchor(u.pending, r.Term().0, r.Term().1);
    var h := u.clock - 2 * u.ttl;
    k := KeepFrom(u.ttl, seen, h, i);
    FirstIsFirst(v, rs, r, h, i, k);
    ReplaySuffix(u.ttl, State(r.Term().0, r.Term().1, seen[k].timestamp + seen[k].ttl), seen, h, k);
  }

  // ----- exactly when a view settles -----

  lemma SilenceSettles(u: ViewState, r: Record)
    requires !u.certain && Apply(u, r).ok && u.seen && u.clock + u.ttl <= Clamp(u.clock, r).timestamp
    ensures var a := Apply(u, r); a.view.certain && (a.view.state, a.outcome) == Fold(u.ttl, NOTHING.state, Clamp(u.clock, r))
  {
  }

  /** The silence rule always fires when it should: a record that comes a whole TTL after the one before, with no
      gap in between, is judged, and leaves the view certain for good. If the view did not know better, the
      lease was free: a valid claim counts and nothing else does. */
  lemma SilenceIsFound(v: ViewState, rs: seq<Record>, r: Record, later: seq<Record>)
    requires AtGap(v) && Feedable(v, rs + [r]) && rs != []
    requires ApplyAll(v, rs).clock + v.ttl <= r.timestamp
    ensures var u := ApplyAll(v, rs);
            var a := Apply(u, r);
            a.ok && a.outcome != Pending && ApplyAll(a.view, later).certain
            && (!u.certain ==>
                  (a.outcome == Accepted <==> r.kind == Claim && 0 < r.ttl <= v.ttl)
                  && (a.outcome == Accepted ==> a.view.state == State(r.holder, r.offset, Clamp(u.clock, r).timestamp + r.ttl))
                  && (a.outcome != Accepted ==> a.view.state == State("", -1, ZERO_TIME)))
  {
    var u := ApplyAll(v, rs);
    FeedablePrefix(v, rs, r);
    hide ApplyAll, Apply, Feedable;
    ClockSoFar(v, rs);
    ApplyContract(u, r);
    if !u.certain {
      SilenceSettles(u, r);
    }
    StaysCertain(Apply(u, r).view, later);
  }

  /** Exactly when an uncertain view becomes certain: by a record a whole TTL after the one before, or by a renew or
      release of a term that some record since the gap, no older than two TTLs, vouches for. */
  lemma SettlesExactly(v: ViewState, rs: seq<Record>, r: Record)
    requires AtGap(v) && 0 < v.ttl && Feedable(v, rs + [r]) && !ApplyAll(v, rs).certain
    ensures var u := ApplyAll(v, rs);
            Apply(u, r).view.certain <==>
              (rs != [] && u.clock + v.ttl <= Max(u.clock, r.timestamp)) || (exists k :: 0 <= k < |rs| && FirstAnchor(v, rs, r, k))
  {
    var u := ApplyAll(v, rs);
    FeedablePrefix(v, rs, r);
    ClockSoFar(v, rs);
    ApplyContract(u, r);
    hide ApplyAll, Apply, Feedable, FirstAnchor;
    if rs != [] && u.clock + v.ttl <= Max(u.clock, r.timestamp) {
      SilenceSettles(u, r);
    } else if Apply(u, r).view.certain {
      var k := AnchorRefolds(v, rs, r);
      assert 0 <= k < |rs| by { FirstInRange(v, rs, r, k); }
    } else if k :| 0 <= k < |rs| && FirstAnchor(v, rs, r, k) {
      AnchorSettles(v, rs, r, k);
    }
  }

  lemma FirstInRange(v: ViewState, rs: seq<Record>, r: Record, k: int)
    requires FirstAnchor(v, rs, r, k)
    ensures 0 <= k < |rs|
  {
  }

  lemma AnchorSettles(v: ViewState, rs: seq<Record>, r: Record, k: int)
    requires AtGap(v) && 0 < v.ttl && Feedable(v, rs + [r]) && FirstAnchor(v, rs, r, k)
    ensures Apply(ApplyAll(v, rs), r).view.certain
  {
    FeedablePrefix(v, rs, r);
    assert rs == (rs + [r])[..|rs|];
    AnchorsAreFound(v, rs, k, r, []);
  }
}
