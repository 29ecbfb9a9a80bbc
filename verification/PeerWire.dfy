/** The record framing between the agent and a peer plugin: a twelve byte header, then the payload. */
module PeerWire {
  import opened Prelude

  newtype byte = x: int | 0 <= x < 256

  const HEADER_BYTES: nat := 12
  const CONTROL_MAX: nat := 65536
  const DATA_MAX: nat := 32768
  const JSON: byte := 1
  const DATA: byte := 2
  /** "FLPP" */
  const MAGIC: seq<byte> := [0x46, 0x4C, 0x50, 0x50]

  datatype Record = Record(kind: byte, payload: seq<byte>)

  datatype WriteError = UnknownKindGiven | TooLarge | Broken

  datatype ReadError = Eof | UnexpectedEof | BadHeader | UnknownKind | TooLong

  // ----- the format -----

  predicate KnownKind(kind: byte) {
    kind == JSON || kind == DATA
  }

  function Limit(kind: byte): nat {
    if kind == JSON then CONTROL_MAX else DATA_MAX
  }

  predicate Legal(r: Record) {
    KnownKind(r.kind) && |r.payload| <= Limit(r.kind)
  }

  /** The bytes of a length, most significant first. */
  function BigEndian(n: nat): (s: seq<byte>)
    requires n < 0x1_0000_0000
    ensures |s| == 4
  {
    [(n / 0x100_0000) as byte, (n / 0x1_0000 % 256) as byte, (n / 256 % 256) as byte, (n % 256) as byte]
  }

  function LengthOf(s: seq<byte>): nat
    requires |s| == 4
  {
    s[0] as nat * 0x100_0000 + s[1] as nat * 0x1_0000 + s[2] as nat * 256 + s[3] as nat
  }

  lemma LengthRoundTrip(n: nat)
    requires n < 0x1_0000_0000
    ensures LengthOf(BigEndian(n)) == n
  {
    assert n / 0x1_0000 == n / 0x100_0000 * 256 + n / 0x1_0000 % 256;
    assert n / 256 == n / 0x1_0000 * 256 + n / 256 % 256;
  }

  lemma BytesRoundTrip(s: seq<byte>)
    requires |s| == 4
    ensures LengthOf(s) < 0x1_0000_0000 && BigEndian(LengthOf(s)) == s
  {
    var n := LengthOf(s);
    assert n / 256 == s[0] as nat * 0x1_0000 + s[1] as nat * 256 + s[2] as nat;
    assert n / 0x1_0000 == s[0] as nat * 256 + s[1] as nat;
    assert n / 0x100_0000 == s[0] as nat;
  }

  function Header(kind: byte, length: nat): (s: seq<byte>)
    requires length < 0x1_0000_0000
    ensures |s| == HEADER_BYTES
  {
    MAGIC + [1, kind, 0, 0] + BigEndian(length)
  }

  function Frame(r: Record): (s: seq<byte>)
    requires Legal(r)
    ensures |s| == HEADER_BYTES + |r.payload|
  {
    Header(r.kind, |r.payload|) + r.payload
  }

  predicate AllLegal(rs: seq<Record>) {
    forall i :: 0 <= i < |rs| ==> Legal(rs[i])
  }

  function Frames(rs: seq<Record>): seq<byte>
    requires AllLegal(rs)
  {
    if rs == [] then [] else Frame(rs[0]) + Frames(rs[1..])
  }

  predicate StartsWith(s: seq<byte>, r: Record) {
    Legal(r) && Frame(r) <= s
  }

  /** A header of any legal record. */
  predicate GoodHeader(h: seq<byte>)
    requires |h| == HEADER_BYTES
  {
    h[..4] == MAGIC && h[4] == 1 && h[6] == 0 && h[7] == 0 && KnownKind(h[5]) && LengthOf(h[8..]) <= Limit(h[5])
  }

  lemma HeaderIsCanonical(h: seq<byte>)
    requires |h| == HEADER_BYTES && h[..4] == MAGIC && h[4] == 1 && h[6] == 0 && h[7] == 0
    ensures LengthOf(h[8..]) < 0x1_0000_0000 && h == Header(h[5], LengthOf(h[8..]))
  {
    BytesRoundTrip(h[8..]);
    assert h == h[..4] + [h[4], h[5], h[6], h[7]] + h[8..];
  }

  lemma HeaderParts(kind: byte, length: nat)
    requires length < 0x1_0000_0000
    ensures var h := Header(kind, length);
            h[..4] == MAGIC && h[4] == 1 && h[5] == kind && h[6] == 0 && h[7] == 0 && h[8..] == BigEndian(length) && LengthOf(h[8..]) == length
  {
    LengthRoundTrip(length);
  }

  /** A stream starts with a record exactly if it has a good header and enough bytes behind it. */
  lemma StartsIffHeader(s: seq<byte>, r: Record)
    ensures StartsWith(s, r) <==>
      && |s| >= HEADER_BYTES && GoodHeader(s[..HEADER_BYTES]) && r.kind == s[5]
      && |s| >= HEADER_BYTES + LengthOf(s[8..HEADER_BYTES])
      && r.payload == s[HEADER_BYTES..HEADER_BYTES + LengthOf(s[8..HEADER_BYTES])]
  {
    if StartsWith(s, r) {
      assert s[..HEADER_BYTES] == Frame(r)[..HEADER_BYTES] == Header(r.kind, |r.payload|);
      HeaderParts(r.kind, |r.payload|);
      assert s[8..HEADER_BYTES] == s[..HEADER_BYTES][8..];
      assert s[HEADER_BYTES..|Frame(r)|] == Frame(r)[HEADER_BYTES..] == r.payload;
    }
    if |s| >= HEADER_BYTES && GoodHeader(s[..HEADER_BYTES]) && r.kind == s[5]
       && |s| >= HEADER_BYTES + LengthOf(s[8..HEADER_BYTES])
       && r.payload == s[HEADER_BYTES..HEADER_BYTES + LengthOf(s[8..HEADER_BYTES])]
    {
      assert s[8..HEADER_BYTES] == s[..HEADER_BYTES][8..];
      HeaderIsCanonical(s[..HEADER_BYTES]);
      assert Frame(r) == s[..HEADER_BYTES + |r.payload|];
    }
  }

  /** The format is a prefix code: no stream starts with two different records. */
  lemma PrefixCode(s: seq<byte>, r: Record, q: Record)
    requires StartsWith(s, r) && StartsWith(s, q)
    ensures r == q
  {
    StartsIffHeader(s, r);
    StartsIffHeader(s, q);
  }

  /** Nothing more can be read from the stream. */
  ghost predicate Stuck(s: seq<byte>) {
    forall r :: !StartsWith(s, r)
  }

  /** A stream splits in one way into records and a rest without one. */
  lemma {:induction false} SplitsOnce(rs: seq<Record>, s: seq<byte>, qs: seq<Record>, t: seq<byte>)
    requires AllLegal(rs) && AllLegal(qs) && Stuck(s) && Stuck(t) && Frames(rs) + s == Frames(qs) + t
    ensures rs == qs && s == t
  {
    var all := Frames(rs) + s;
    assert rs == [] ==> all == s;
    assert qs == [] ==> all == t;
    if rs != [] {
      assert all == Frame(rs[0]) + (Frames(rs[1..]) + s);
      assert StartsWith(all, rs[0]);
    }
    if qs != [] {
      assert all == Frame(qs[0]) + (Frames(qs[1..]) + t);
      assert StartsWith(all, qs[0]);
    }
    if rs != [] && qs != [] {
      PrefixCode(all, rs[0], qs[0]);
      assert Frames(rs[1..]) + s == all[|Frame(rs[0])|..] == Frames(qs[1..]) + t;
      SplitsOnce(rs[1..], s, qs[1..], t);
    }
  }

  lemma EmptyIsStuck()
    ensures Stuck([])
  {
  }

  // ----- the writer -----

  /** A pipe: what has been written and not read. */
  class Pipe {
    var bytes: seq<byte>

    constructor ()
      ensures bytes == []
    {
      bytes := [];
    }

    /** io.Writer.Write; `room` is what the other side still takes before it breaks. */
    method Write(data: array<byte>, room: nat) returns (left: nat, ok: bool)
      modifies this
      ensures ok <==> data.Length <= room
      ensures bytes == old(bytes) + data[..if ok then data.Length else room]
      ensures ok ==> left == room - data.Length
    {
      ok := data.Length <= room;
      var n := if ok then data.Length else room;
      bytes := bytes + data[..n];
      left := room - n;
    }

    /** io.ReadFull */
    method ReadFull(data: array<byte>) returns (error: Option<ReadError>)
      modifies this, data
      ensures error.None? <==> data.Length <= |old(bytes)|
      ensures error.None? ==> old(bytes) == data[..] + bytes
      ensures error.Some? ==> bytes == [] && error.value == if old(bytes) == [] then Eof else UnexpectedEof
    {
      if |bytes| < data.Length {
        error := Some(if bytes == [] then Eof else UnexpectedEof);
        bytes := [];
        return;
      }
      forall i | 0 <= i < data.Length {
        data[i] := bytes[i];
      }
      assert data[..] == bytes[..data.Length];
      bytes := bytes[data.Length..];
      error := None;
    }

    /** The header buffer, filled by index. */
    method FillHeader(header: array<byte>, kind: byte, length: nat)
      requires header.Length == HEADER_BYTES && length < 0x1_0000_0000
      modifies header
      ensures header[..] == Header(kind, length)
    {
      header[0], header[1], header[2], header[3] := MAGIC[0], MAGIC[1], MAGIC[2], MAGIC[3];
      header[4] := 1;
      header[5] := kind;
      header[6], header[7] := 0, 0;
      header[8] := (length / 0x100_0000) as byte;
      header[9] := (length / 0x1_0000 % 256) as byte;
      header[10] := (length / 256 % 256) as byte;
      header[11] := (length % 256) as byte;
    }

    /** writePluginPeerRecord: a legal record goes out as its frame, or as part of it if the pipe breaks. */
    method WriteRecord(kind: byte, payload: array<byte>, room: nat) returns (error: Option<WriteError>)
      modifies this
      ensures !KnownKind(kind) <==> error == Some(UnknownKindGiven)
      ensures KnownKind(kind) && payload.Length > Limit(kind) <==> error == Some(TooLarge)
      ensures !Legal(Record(kind, payload[..])) ==> bytes == old(bytes)
      ensures Legal(Record(kind, payload[..])) ==>
        && (error.None? <==> HEADER_BYTES + payload.Length <= room)
        && bytes == old(bytes) + (if error.None? then Frame(Record(kind, payload[..])) else Frame(Record(kind, payload[..]))[..room])
    {
      var limit := DATA_MAX;
      if kind == JSON { limit := CONTROL_MAX; } else if kind != DATA { return Some(UnknownKindGiven); }
      if payload.Length > limit { return Some(TooLarge); }
      ghost var frame := Frame(Record(kind, payload[..]));
      var header := new byte[HEADER_BYTES];
      FillHeader(header, kind, payload.Length);
      assert frame == header[..] + payload[..];
      var left, ok := Write(header, room);
      if !ok {
        assert header[..room] == frame[..room];
        return Some(Broken);
      }
      left, ok := Write(payload, left);
      if !ok {
        assert frame[..room] == header[..] + payload[..room - HEADER_BYTES];
        return Some(Broken);
      }
      assert payload[..payload.Length] == payload[..];
      error := None;
    }

    // ----- the reader -----

    /** readPluginPeerRecord: a record is read exactly if the stream starts with one, and then its frame, no more and
        no less, is consumed. */
    method ReadRecord() returns (r: Result<Record, ReadError>)
      modifies this
      ensures r.Ok? ==> StartsWith(old(bytes), r.value) && old(bytes) == Frame(r.value) + bytes
      ensures r.Err? ==> Stuck(old(bytes))
      ensures r == Err(Eof) <==> old(bytes) == [] || EndsAfterHeader(old(bytes))
      ensures r == Err(Eof) || r == Err(UnexpectedEof) ==> bytes == []
      ensures r == Err(UnexpectedEof) <==>
        0 < |old(bytes)| < HEADER_BYTES
        || (|old(bytes)| > HEADER_BYTES && GoodHeader(old(bytes)[..HEADER_BYTES]) && |old(bytes)| - HEADER_BYTES < LengthOf(old(bytes)[8..HEADER_BYTES]))
    {
      ghost var was := bytes;
      var header := new byte[HEADER_BYTES];
      var error := ReadFull(header);
      if error.Some? {
        NoFrame(was);
        return Err(error.value);
      }
      ghost var h := header[..];
      assert h == was[..HEADER_BYTES] && h[8..] == was[8..HEADER_BYTES] && was[5] == h[5] == header[5];
      NoFrame(was);
      if header[..4] != MAGIC || header[4] != 1 || header[6] != 0 || header[7] != 0 {
        assert header[..4] == h[..4];
        return Err(BadHeader);
      }
      var kind := header[5];
      var limit := DATA_MAX;
      if kind == JSON { limit := CONTROL_MAX; } else if kind != DATA { return Err(UnknownKind); }
      var length := LengthOf(header[8..]);
      assert header[8..] == h[8..];
      if length > limit { return Err(TooLong); }
      assert header[..4] == h[..4];
      var payload := new byte[length];
      error := ReadFull(payload);
      if error.Some? { return Err(error.value); }
      r := Ok(Record(kind, payload[..]));
      assert was == h + (payload[..] + bytes);
      assert payload[..] == was[HEADER_BYTES..HEADER_BYTES + length];
      StartsIffHeader(was, r.value);
      HeaderIsCanonical(h);
      assert was == Frame(r.value) + bytes;
    }

    /** Reading until the first error takes every record the stream holds, in order. */
    method ReadAll() returns (rs: seq<Record>, error: ReadError)
      modifies this
      ensures AllLegal(rs)
      ensures exists rest :: Stuck(rest) && old(bytes) == Frames(rs) + rest && (rest == [] ==> error == Eof && bytes == [])
      // and of what a writer wrote, exactly what it wrote
      ensures forall qs :: AllLegal(qs) && old(bytes) == Frames(qs) ==> rs == qs && error == Eof && bytes == []
    {
      ghost var was := bytes;
      ghost var rest := bytes;
      rs := [];
      assert Frames(rs) + bytes == was;
      while true
        invariant AllLegal(rs) && was == Frames(rs) + bytes
        decreases |bytes|
      {
        rest := bytes;
        var r := ReadRecord();
        if r.Err? {
          error := r.error;
          break;
        }
        FramesSnoc(rs, r.value);
        rs := rs + [r.value];
      }
      forall qs | AllLegal(qs) && was == Frames(qs) ensures rs == qs && rest == [] {
        EmptyIsStuck();
        assert Frames(qs) + [] == was;
        SplitsOnce(rs, rest, qs, []);
      }
    }
  }

  lemma {:induction false} FramesSnoc(rs: seq<Record>, r: Record)
    requires AllLegal(rs) && Legal(r)
    ensures AllLegal(rs + [r]) && Frames(rs + [r]) == Frames(rs) + Frame(r)
  {
    if rs != [] {
      assert (rs + [r])[1..] == rs[1..] + [r];
      FramesSnoc(rs[1..], r);
    }
  }

  /** The stream is a good header of a record whose payload has not come; it reads like the end of the stream. */
  predicate EndsAfterHeader(s: seq<byte>) {
    |s| == HEADER_BYTES && GoodHeader(s) && LengthOf(s[8..]) > 0
  }

  /** A record of five bytes, cut off behind its header. */
  lemma CutOffHappens()
    ensures EndsAfterHeader([0x46, 0x4C, 0x50, 0x50, 1, JSON, 0, 0, 0, 0, 0, 5])
    ensures forall payload: seq<byte> :: |payload| == 5 ==>
      Frame(Record(JSON, payload))[..HEADER_BYTES] == [0x46, 0x4C, 0x50, 0x50, 1, JSON, 0, 0, 0, 0, 0, 5]
  {
    var s: seq<byte> := [0x46, 0x4C, 0x50, 0x50, 1, JSON, 0, 0, 0, 0, 0, 5];
    assert s[..4] == MAGIC && s[8..] == [0, 0, 0, 5];
    assert BigEndian(5) == [0, 0, 0, 5];
    assert Header(JSON, 5) == s;
  }

  lemma NoFrame(s: seq<byte>)
    ensures |s| < HEADER_BYTES || !GoodHeader(s[..HEADER_BYTES]) || |s| < HEADER_BYTES + LengthOf(s[8..HEADER_BYTES]) ==> Stuck(s)
  {
    forall r
      ensures StartsWith(s, r) ==> |s| >= HEADER_BYTES && GoodHeader(s[..HEADER_BYTES]) && |s| >= HEADER_BYTES + LengthOf(s[8..HEADER_BYTES])
    {
      StartsIffHeader(s, r);
    }
  }
}
