/**
 Lease records (lease/record.go): what one message on the lease topic says, and how it is
 written to and read from the wire.

 Times and durations are nanoseconds. `ZERO_TIME` is Go's zero `time.Time`: it is used as
 "not set", and it lies before every instant at which anything in the protocol happens.
 */
module Records {
  type Time = int
  type Duration = int

  const ZERO_TIME: Time := 0
  const MILLISECOND: Duration := 1_000_000
  const WIRE_VERSION := 1

  /** `Unknown` stands for every other value of the source's uint8, and for a message that
      does not decode. */
  datatype Kind = Claim | Renew | Release | Unknown

  datatype Record = Record(
    offset: int,
    timestamp: Time,
    kind: Kind,
    holder: string,
    epoch: int,
    ttl: Duration
  ) {
    /** The term a record speaks of. A claim speaks of the one it asks for. */
    function Term(): (string, int) {
      if kind == Claim then (holder, offset) else (holder, epoch)
    }

    /** A record that says its term is live: the kinds an anchor can rest on. */
    predicate Asserts() {
      kind == Claim || kind == Renew
    }
  }

  function Max(a: int, b: int): int { if a > b then a else b }
  function Min(a: int, b: int): int { if a < b then a else b }

  datatype Result<+T> = Ok(value: T) | Err(reason: string)

  /** The fields of the JSON object; a value that is not such an object is `Garbage`. */
  datatype WireValue =
    | Garbage
    | WireValue(version: int, kind: string, holder: string, epoch: int, ttlMs: int)

  /** Signed 64-bit wrap-around, the arithmetic of Go's int64 and time.Duration. */
  function Wrap64(x: int): (r: int)
    ensures -0x8000_0000_0000_0000 <= r < 0x8000_0000_0000_0000
    ensures (x - r) % 0x1_0000_0000_0000_0000 == 0
    ensures -0x8000_0000_0000_0000 <= x < 0x8000_0000_0000_0000 ==> r == x
  {
    (x + 0x8000_0000_0000_0000) % 0x1_0000_0000_0000_0000 - 0x8000_0000_0000_0000
  }

  predicate IsInt64(x: int) {
    -0x8000_0000_0000_0000 <= x < 0x8000_0000_0000_0000
  }

  /** Whole milliseconds, truncated toward zero as Go's integer division does. */
  function Milliseconds(d: Duration): int {
    if d >= 0 then d / MILLISECOND else -(-d / MILLISECOND)
  }

  function KindName(k: Kind): string {
    match k
    case Claim => "claim"
    case Renew => "renew"
    case Release => "release"
    case Unknown => "kind"
  }

  function EncodeValue(r: Record): Result<WireValue> {
    if r.kind == Unknown then Err("cannot encode")
    else if r.holder == "" then Err("empty holder")
    else Ok(WireValue(WIRE_VERSION, KindName(r.kind), r.holder, if r.kind == Claim then 0 else r.epoch, Milliseconds(r.ttl)))
  }

  function DecodeValue(w: WireValue): Result<Record> {
    if w.Garbage? then Err("decode")
    else if w.version != WIRE_VERSION then Err("version")
    else
      var ttl := Wrap64(w.ttlMs * MILLISECOND);
      if w.kind != "claim" && w.kind != "renew" && w.kind != "release" then Err("kind")
      else if w.holder == "" then Err("empty holder")
      else if w.kind == "claim" then Ok(Record(0, ZERO_TIME, Claim, w.holder, 0, ttl))
      else if w.kind == "renew" then Ok(Record(0, ZERO_TIME, Renew, w.holder, w.epoch, ttl))
      else Ok(Record(0, ZERO_TIME, Release, w.holder, w.epoch, ttl))
  }

  /** What survives the wire: the broker assigns offset and timestamp, a claim names no
      epoch, and the TTL loses what is below a millisecond. */
  function Canonical(r: Record): Record {
    Record(0, ZERO_TIME, r.kind, r.holder, if r.kind == Claim then 0 else r.epoch, Milliseconds(r.ttl) * MILLISECOND)
  }

  /** Everything encodable decodes, to itself up to `Canonical`, and nothing else encodes. */
  lemma EncodeDecode(r: Record)
    requires IsInt64(r.ttl)
    ensures EncodeValue(r).Ok? <==> r.kind != Unknown && r.holder != ""
    ensures EncodeValue(r).Ok? ==> DecodeValue(EncodeValue(r).value) == Ok(Canonical(r))
    ensures 0 <= r.ttl ==> 0 <= r.ttl - Canonical(r).ttl < MILLISECOND
  {
    var ms := Milliseconds(r.ttl);
    assert IsInt64(ms * MILLISECOND);
    assert KindName(Claim) == "claim" && KindName(Renew) == "renew" && KindName(Release) == "release";
    assert "renew"[0] != "claim"[0] && |"release"| != |"claim"| && |"release"| != |"renew"|;
  }

  /** The round trip is the identity exactly for whole-millisecond TTLs (on the fields the
      writer chooses): a participant configured otherwise writes a shorter term than it counts on. */
  lemma RoundTripIsExact(r: Record)
    requires IsInt64(r.ttl) && r.kind != Unknown && r.holder != ""
    requires r.offset == 0 && r.timestamp == ZERO_TIME && (r.kind == Claim ==> r.epoch == 0)
    ensures DecodeValue(EncodeValue(r).value) == Ok(r) <==> r.ttl % MILLISECOND == 0
  {
    EncodeDecode(r);
    assert Milliseconds(r.ttl) * MILLISECOND == r.ttl <==> r.ttl % MILLISECOND == 0;
  }

  /** What is written: the version, the kind by its documented name, the holder, the epoch of what names one, and the
      TTL in milliseconds. */
  lemma WireForm(holder: string, epoch: int, ms: nat)
    requires holder != ""
    ensures var ttl := ms * MILLISECOND;
            EncodeValue(Record(7, 7, Claim, holder, epoch, ttl)) == Ok(WireValue(1, "claim", holder, 0, ms))
            && EncodeValue(Record(7, 7, Renew, holder, epoch, ttl)) == Ok(WireValue(1, "renew", holder, epoch, ms))
            && EncodeValue(Record(7, 7, Release, holder, epoch, ttl)) == Ok(WireValue(1, "release", holder, epoch, ms))
  {
    assert Milliseconds(ms * MILLISECOND) == ms;
  }

  /** Exactly what decodes, and to what. */
  lemma DecodesExactly(w: WireValue)
    ensures DecodeValue(w).Ok? <==> w.WireValue? && w.version == 1 && w.kind in {"claim", "renew", "release"} && w.holder != ""
    ensures DecodeValue(w).Ok? ==>
              var r := DecodeValue(w).value;
              r.kind == (if w.kind == "claim" then Claim else if w.kind == "renew" then Renew else Release)
              && r.holder == w.holder && r.epoch == (if w.kind == "claim" then 0 else w.epoch)
              && IsInt64(r.ttl) && (r.ttl - w.ttlMs * 1_000_000) % 0x1_0000_0000_0000_0000 == 0
  {
    assert "claim" != "renew" && "claim" != "release" && "renew" != "release" by {
      assert "claim"[0] != "renew"[0] && |"claim"| != |"release"| && |"renew"| != |"release"|;
    }
  }

  lemma MillisecondsExact(d: Duration, ms: int)
    requires IsInt64(d) && d == Wrap64(ms * MILLISECOND)
    ensures Milliseconds(d) == ms <==> IsInt64(ms * MILLISECOND)
  {
  }

  /** In the other direction: whatever decodes encodes again, and to the value it came from exactly if its
      TTL fits 64 bits of nanoseconds, up to the epoch of a claim. */
  lemma DecodeEncode(w: WireValue)
    requires DecodeValue(w).Ok?
    ensures EncodeValue(DecodeValue(w).value).Ok?
    ensures EncodeValue(DecodeValue(w).value) == Ok(if w.kind == "claim" then w.(epoch := 0) else w) <==> IsInt64(w.ttlMs * MILLISECOND)
  {
    var r := DecodeValue(w).value;
    MillisecondsExact(r.ttl, w.ttlMs);
    assert KindName(r.kind) == w.kind;
  }
}
