/**
 The View as the source has it: an object updated in place, with the source's search, replay
 and prune loops, proved against the functions of module `Views`.
 */
module MutableViews {
  import opened Records
  import opened LeaseFold
  import opened Views

  class View {
    const ttl: Duration
    var certain: bool
    var state: State
    var clock: Time
    var lastOffset: int
    var seen: bool
    var pending: seq<Record>

    ghost function Abs(): ViewState
      reads this
    {
      ViewState(ttl, certain, state, clock, lastOffset, seen, pending)
    }

    /** NewView; the source panics on a TTL that is not positive. */
    constructor (ttl: Duration)
      requires 0 < ttl
      ensures Abs() == New(ttl)
    {
      this.ttl := ttl;
      certain, state, clock, lastOffset, seen, pending := false, EMPTY_STATE, ZERO_TIME, -1, false, [];
    }

    constructor FromStart(ttl: Duration)
      requires 0 < ttl
      ensures Abs() == NewFromStart(ttl)
    {
      this.ttl := ttl;
      certain, state, clock, lastOffset, seen, pending := true, EMPTY_STATE.(epoch := -1), ZERO_TIME, -1, false, [];
    }

    method Gap()
      modifies this
      ensures Abs() == Views.Gap(old(Abs()))
    {
      certain := false;
      state := EMPTY_STATE;
      pending := [];
      seen := false;
    }

    method Quiet(d: Duration) returns (ok: bool)
      modifies this
      ensures (Abs(), ok) == Views.Quiet(old(Abs()), d)
    {
      if d < ttl {
        return false;
      }
      SetFree();
      return true;
    }

    method SetFree()
      modifies this
      ensures Abs() == Views.SetFree(old(Abs()))
    {
      if !certain {
        state := State("", -1, ZERO_TIME);
      }
      state := state.(holder := "");
      certain := true;
      pending := [];
    }

    method Apply(record: Record) returns (out: Outcome, ok: bool)
      modifies this
      ensures Applied(Abs(), out, ok) == Views.Apply(old(Abs()), record)
    {
      var r := record;
      if r.offset <= lastOffset {
        return Rejected, false;
      }
      if r.kind == Unknown {
        return Rejected, false;
      }
      var prev, hadPrev := clock, seen;
      if r.timestamp < clock {
        r := r.(timestamp := clock);
      }
      clock := r.timestamp;
      lastOffset := r.offset;
      seen := true;
      if !certain && hadPrev && r.timestamp - prev >= ttl {
        SetFree();
      }
      if certain {
        out := FoldRecord(r);
      } else {
        out := ApplyUncertain(r);
      }
      ok := true;
    }

    method ApplyUncertain(r: Record) returns (out: Outcome)
      modifies this
      ensures (Abs(), out) == Views.ApplyUncertain(old(Abs()), r)
    {
      if r.kind != Claim {
        var (holder, epoch) := r.Term();
        var i := 0;
        while i < |pending|
          invariant 0 <= i <= |pending|
          invariant Abs() == old(Abs())
          invariant FindAnchor(pending, holder, epoch) == i + FindAnchor(pending[i..], holder, epoch)
        {
          var p := pending[i];
          if p.kind != Release && p.Term() == (holder, epoch) {
            assert FindAnchor(pending[i..], holder, epoch) == 0;
            state := State(holder, epoch, p.timestamp + p.ttl);
            certain := true;
            var rest := pending[i + 1..];
            pending := [];
            ReplayRest(rest);
            out := FoldRecord(r);
            return;
          }
          assert pending[i..][1..] == pending[i + 1..];
          i := i + 1;
        }
        assert pending[i..] == [];
      }
      if ValidTtl(ttl, r) {
        pending := pending + [r];
      }
      PrunePending();
      out := Pending;
    }

    /** The replay loop of an anchored view. */
    method ReplayRest(rest: seq<Record>)
      modifies this
      ensures Abs() == old(Abs()).(state := Replay(ttl, old(state), rest))
    {
      assert rest[..0] == [];
      for k := 0 to |rest|
        invariant Abs() == old(Abs()).(state := Replay(ttl, old(state), rest[..k]))
      {
        assert rest[..k + 1][..k] == rest[..k];
        var _ := FoldRecord(rest[k]);
      }
      assert rest[..|rest|] == rest;
    }

    method PrunePending()
      modifies this
      ensures Abs() == Prune(old(Abs()))
    {
      var horizon := clock - 2 * ttl;
      var i := 0;
      while i < |pending| && pending[i].timestamp < horizon
        invariant 0 <= i <= |pending|
        invariant DropOld(pending, horizon) == DropOld(pending[i..], horizon)
      {
        assert pending[i..][1..] == pending[i + 1..];
        i := i + 1;
      }
      pending := pending[i..];
    }

    method FoldRecord(r: Record) returns (out: Outcome)
      modifies this
      ensures (Abs(), out) == FoldInto(old(Abs()), r)
    {
      if !ValidTtl(ttl, r) {
        return Rejected;
      }
      var held := state.HeldAt(r.timestamp);
      match r.kind {
        case Claim =>
          if held {
            return Rejected;
          }
          state := State(r.holder, r.offset, r.timestamp + r.ttl);
        case Renew =>
          if !held || state.holder != r.holder || state.epoch != r.epoch {
            return Rejected;
          }
          state := state.(expires := r.timestamp + r.ttl);
        case Release =>
          if !held || state.holder != r.holder || state.epoch != r.epoch {
            return Rejected;
          }
          state := state.(holder := "");
          state := state.(expires := r.timestamp);
        case Unknown =>
      }
      return Accepted;
    }
  }
}
