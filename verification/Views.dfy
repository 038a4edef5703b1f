/**
 The View of one reader (lease/view.go): a fold that may start in the middle of the log and
 is then uncertain until it can prove a state. `ViewState` and the functions on it say what
 each operation does to a view; module `MutableViews` does it in place.
 */
module Views {
  import opened Records
  import opened LeaseFold

  datatype ViewState = ViewState(
    ttl: Duration,
    certain: bool,
    state: State,
    clock: Time,
    lastOffset: int,
    seen: bool,
    pending: seq<Record>
  )

  datatype Applied = Applied(view: ViewState, outcome: Outcome, ok: bool)

  const EMPTY_STATE := State("", 0, ZERO_TIME)

  function New(ttl: Duration): ViewState {
    ViewState(ttl, false, EMPTY_STATE, ZERO_TIME, -1, false, [])
  }

  function NewFromStart(ttl: Duration): ViewState {
    ViewState(ttl, true, NOTHING.state, ZERO_TIME, -1, false, [])
  }

  function Gap(v: ViewState): ViewState {
    v.(certain := false, state := EMPTY_STATE, pending := [], seen := false)
  }

  function SetFree(v: ViewState): ViewState {
    v.(certain := true, pending := [],
       state := if v.certain then v.state.(holder := "") else NOTHING.state)
  }

  /** Silence measured by the reader itself; d shorter than a TTL proves nothing. */
  function Quiet(v: ViewState, d: Duration): (ViewState, bool) {
    if d < v.ttl then (v, false) else (SetFree(v), true)
  }

  /** Does the pending record p vouch for the term (holder, epoch)? */
  predicate Anchors(p: Record, holder: string, epoch: int) {
    p.kind != Release && p.Term() == (holder, epoch)
  }

  /** The first pending record of the term, or |pending|. */
  function FindAnchor(pending: seq<Record>, holder: string, epoch: int): (i: nat)
    ensures i <= |pending|
    ensures i < |pending| ==> Anchors(pending[i], holder, epoch)
    ensures forall j :: 0 <= j < i ==> !Anchors(pending[j], holder, epoch)
  {
    if pending == [] || Anchors(pending[0], holder, epoch) then 0
    else 1 + FindAnchor(pending[1..], holder, epoch)
  }

  /** The state after folding rs, in order, from s. */
  function Replay(ttl: Duration, s: State, rs: seq<Record>): State {
    if rs == [] then s
    else Fold(ttl, Replay(ttl, s, rs[..|rs| - 1]), rs[|rs| - 1]).0
  }

  function DropOld(pending: seq<Record>, horizon: Time): seq<Record> {
    if pending != [] && pending[0].timestamp < horizon then DropOld(pending[1..], horizon) else pending
  }

  function Prune(v: ViewState): ViewState {
    v.(pending := DropOld(v.pending, v.clock - 2 * v.ttl))
  }

  function FoldInto(v: ViewState, r: Record): (ViewState, Outcome) {
    var (s, out) := Fold(v.ttl, v.state, r);
    (v.(state := s), out)
  }

  function ApplyUncertain(v: ViewState, r: Record): (ViewState, Outcome) {
    var i := if r.kind == Claim then |v.pending| else FindAnchor(v.pending, r.Term().0, r.Term().1);
    if i < |v.pending| then
      var p := v.pending[i];
      var proven := State(r.Term().0, r.Term().1, p.timestamp + p.ttl);
      FoldInto(v.(certain := true, pending := [], state := Replay(v.ttl, proven, v.pending[i + 1..])), r)
    else
      (Prune(if ValidTtl(v.ttl, r) then v.(pending := v.pending + [r]) else v), Pending)
  }

  /** The bookkeeping of Apply before it judges: clamp, clock, offset. */
  function Advance(v: ViewState, c: Record): ViewState {
    v.(clock := c.timestamp, lastOffset := c.offset, seen := true)
  }

  /** A whole TTL passed between two consecutive records. */
  predicate Silent(v: ViewState, c: Record) {
    !v.certain && v.seen && c.timestamp - v.clock >= v.ttl
  }

  function Apply(v: ViewState, r: Record): Applied {
    if r.offset <= v.lastOffset || r.kind == Unknown then Applied(v, Rejected, false)
    else
      var c := Clamp(v.clock, r);
      var w := if Silent(v, c) then SetFree(Advance(v, c)) else Advance(v, c);
      var (x, out) := if w.certain then FoldInto(w, c) else ApplyUncertain(w, c);
      Applied(x, out, true)
  }

  /** Apply in sequence, ignoring outcomes. */
  function ApplyAll(v: ViewState, rs: seq<Record>): ViewState {
    if rs == [] then v
    else Apply(ApplyAll(v, rs[..|rs| - 1]), rs[|rs| - 1]).view
  }

  /** What a view may be fed without Apply refusing it. */
  ghost predicate Feedable(v: ViewState, rs: seq<Record>) {
    && (forall i :: 0 <= i < |rs| ==> rs[i].kind != Unknown && v.lastOffset < rs[i].offset)
    && (forall i, j :: 0 <= i < j < |rs| ==> rs[i].offset < rs[j].offset)
  }

  // ----- the view from the start is the reference fold -----

  /** A view that reads everything from offset 0 is always certain and is exactly the
      reference fold of what it read, verdicts included, whatever the timestamps. */
  lemma {:induction false} FromStartIsTheFold(ttl: Duration, log: seq<Record>)
    requires Feedable(NewFromStart(ttl), log)
    ensures var v, t := ApplyAll(NewFromStart(ttl), log), TruthOf(ttl, log);
            v.certain && v.ttl == ttl && v.state == t.state && v.clock == t.clock
            && v.lastOffset == (if log == [] then -1 else log[|log| - 1].offset)
    ensures forall r: Record :: r.kind != Unknown && (log == [] ==> r.offset >= 0) && (log != [] ==> r.offset > log[|log| - 1].offset) ==>
              var a := Apply(ApplyAll(NewFromStart(ttl), log), r);
              a.ok && a.outcome == Judge(ttl, TruthOf(ttl, log), r).1
  {
    if log != [] {
      FromStartIsTheFold(ttl, log[..|log| - 1]);
    }
  }

  /** An error leaves the view unchanged, and Apply errs exactly on a repeated offset or a
      kind it does not know. Anything else moves the offset and never the clock backwards. */
  lemma ApplyContract(v: ViewState, r: Record)
    ensures var a := Apply(v, r);
            (a.ok <==> v.lastOffset < r.offset && r.kind != Unknown)
            && (!a.ok ==> a.view == v && a.outcome == Rejected)
            && (a.ok ==> a.view.lastOffset == r.offset && a.view.seen && a.view.ttl == v.ttl
                         && a.view.clock == Clamp(v.clock, r).timestamp && v.clock <= a.view.clock && r.timestamp <= a.view.clock)
            && (a.ok ==> (a.outcome == Pending <==> !a.view.certain))
            && (v.certain ==> a.view.certain)
  {
  }

  /** Quiet answers for a whole TTL of silence and nothing less: then nobody holds the lease at any time,
      nothing is pending, and position, time and a known epoch stay. */
  lemma QuietContract(v: ViewState, d: Duration)
    ensures var (w, ok) := Quiet(v, d);
            (ok <==> v.ttl <= d)
            && (!ok ==> w == v)
            && (ok ==> w.certain && w.pending == [] && (forall t :: !w.state.HeldAt(t))
                       && (if v.certain then w.state.(holder := v.state.holder) == v.state else w.state == State("", -1, ZERO_TIME))
                       && w.(certain := v.certain, state := v.state, pending := v.pending) == v)
  {
  }

  lemma {:induction false} StaysCertain(v: ViewState, rs: seq<Record>)
    requires v.certain
    ensures ApplyAll(v, rs).certain
  {
    if rs != [] {
      StaysCertain(v, rs[..|rs| - 1]);
    }
  }
}
