/** The framed header between worker-shim and worker-launcher: four length bytes, then the payload. */
module Framing {
  import opened Collections

  newtype Byte = b: int | 0 <= b < 256

  const TWO32: nat := 0x1_0000_0000

  datatype Error = WriteFailed | ShortLength | ShortPayload | BadPayload

  // ----- the length prefix

  /** Most significant byte first, of a number reduced to 32 bits. */
  function Big32(n: nat): seq<Byte> {
    var m := n % TWO32;
    [(m / 0x100_0000) as Byte, (m / 0x1_0000 % 0x100) as Byte, (m / 0x100 % 0x100) as Byte, (m % 0x100) as Byte]
  }

  function FromBig32(b: seq<Byte>): nat
    requires |b| == 4
  {
    b[0] as nat * 0x100_0000 + b[1] as nat * 0x1_0000 + b[2] as nat * 0x100 + b[3] as nat
  }

  lemma Big32Inverse(n: nat)
    ensures |Big32(n)| == 4 && FromBig32(Big32(n)) == n % TWO32
  {
    var m := n % TWO32;
    assert m / 0x1_0000 == m / 0x100_0000 * 0x100 + m / 0x1_0000 % 0x100;
    assert m / 0x100 == m / 0x1_0000 * 0x100 + m / 0x100 % 0x100;
  }

  /** The first place where two byte sequences of equal length differ decides which is smaller. */
  predicate Precedes(a: seq<Byte>, b: seq<Byte>) {
    |a| == |b| && exists i :: 0 <= i < |a| && a[..i] == b[..i] && a[i] < b[i]
  }

  lemma OrderPreserved(a: seq<Byte>, b: seq<Byte>)
    requires |a| == |b| == 4
    ensures FromBig32(a) < FromBig32(b) <==> Precedes(a, b)
  {
    if a[0] != b[0] {
      assert a[..0] == b[..0];
    } else if a[1] != b[1] {
      assert a[..1] == b[..1];
    } else if a[2] != b[2] {
      assert a[..2] == b[..2];
    } else if a[3] != b[3] {
      assert a[..3] == b[..3];
    }
  }

  /** The most significant byte comes first: numbers are ordered as their encodings are, byte by byte. */
  lemma PrefixOrdered(n: nat, m: nat)
    requires n < TWO32 && m < TWO32
    ensures n < m <==> Precedes(Big32(n), Big32(m))
  {
    Big32Inverse(n);
    Big32Inverse(m);
    OrderPreserved(Big32(n), Big32(m));
  }

  // ----- frames as byte sequences

  function Frame(payload: seq<Byte>): seq<Byte> {
    Big32(|payload|) + payload
  }

  /** What a reader makes of a stream: a payload or an error, and the bytes it leaves unread. */
  function Unframe(stream: seq<Byte>): (Result<seq<Byte>, Error>, seq<Byte>) {
    if |stream| < 4 then (Err(ShortLength), [])
    else
      var n := FromBig32(stream[..4]);
      if |stream| - 4 < n then (Err(ShortPayload), [])
      else (Ok(stream[4..4 + n]), stream[4 + n..])
  }

  /** A frame comes back whole, with every later byte unread, exactly when the payload is shorter than 2^32 bytes. */
  lemma FrameRoundTrip(payload: seq<Byte>, rest: seq<Byte>)
    ensures Unframe(Frame(payload) + rest) == (Ok(payload), rest) <==> |payload| < TWO32
  {
    var stream := Frame(payload) + rest;
    Big32Inverse(|payload|);
    var n := |payload| % TWO32;
    assert stream[..4] == Big32(|payload|);
    assert stream == Big32(|payload|) + (payload + rest);
    assert stream[4..] == payload + rest;
    assert stream[4..4 + n] == payload[..n];
    assert stream[4 + n..] == payload[n..] + rest;
    if |payload| < TWO32 {
      assert payload[..n] == payload && payload[n..] + rest == rest;
    } else {
      assert |payload[..n]| < |payload|;
    }
  }

  /** The reader's view with a decoder for the payload. */
  function ReadHeader<H>(stream: seq<Byte>, decode: seq<Byte> -> Option<H>): (Result<H, Error>, seq<Byte>) {
    match Unframe(stream)
    case (Err(e), rest) => (Err(e), rest)
    case (Ok(payload), rest) =>
      match decode(payload)
      case None => (Err(BadPayload), rest)
      case Some(h) => (Ok(h), rest)
  }

  /** For any codec with a left inverse: what was written is read back, and nothing more is consumed. */
  lemma HeaderRoundTrip<H>(h: H, encode: H -> seq<Byte>, decode: seq<Byte> -> Option<H>, rest: seq<Byte>)
    requires decode(encode(h)) == Some(h) && |encode(h)| < TWO32
    ensures ReadHeader(Frame(encode(h)) + rest, decode) == (Ok(h), rest)
  {
    FrameRoundTrip(encode(h), rest);
  }

  // ----- the connection

  /** The segments of a stream, joined. */
  function Flat(segments: seq<seq<Byte>>): seq<Byte> {
    if segments == [] then [] else segments[0] + Flat(segments[1..])
  }

  class Connection {
    var incoming: seq<seq<Byte>>  // not read yet, cut into segments in any way
    var sent: seq<Byte>

    constructor (incoming: seq<seq<Byte>>)
      ensures this.incoming == incoming && sent == []
    {
      this.incoming, sent := incoming, [];
    }

    function Unread(): seq<Byte>
      reads this`incoming
    {
      Flat(incoming)
    }

    /** One read: some bytes of the next segment, at most as many as asked for; none at the end. */
    method Read(max: nat) returns (chunk: seq<Byte>)
      requires max > 0
      modifies this`incoming
      ensures |chunk| <= max && old(Unread()) == chunk + Unread()
      ensures chunk == [] ==> old(Unread()) == []
    {
      while incoming != [] && incoming[0] == []
        invariant Unread() == old(Unread())
        decreases |incoming|
      {
        incoming := incoming[1..];
      }
      if incoming == [] {
        return [];
      }
      var segment := incoming[0];
      var n := if |segment| < max then |segment| else max;
      chunk := segment[..n];
      assert segment == chunk + segment[n..];
      var rest := incoming[1..];
      incoming := [segment[n..]] + rest;
      assert incoming[1..] == rest;
    }

    /** Read until the buffer is full, however the stream is cut. */
    method ReadFull(buffer: array<Byte>) returns (ok: bool)
      modifies this`incoming, buffer
      ensures ok <==> |old(Unread())| >= buffer.Length
      ensures ok ==> buffer[..] == old(Unread())[..buffer.Length] && Unread() == old(Unread())[buffer.Length..]
      ensures !ok ==> Unread() == []
    {
      var filled := 0;
      ghost var stream := Unread();
      while filled < buffer.Length
        invariant filled <= buffer.Length && filled <= |stream|
        invariant buffer[..filled] == stream[..filled] && Unread() == stream[filled..]
        decreases buffer.Length - filled
      {
        ghost var before := Unread();
        var chunk := Read(buffer.Length - filled);
        if chunk == [] {
          return false;
        }
        Fill(buffer, filled, chunk);
        assert before[..|chunk|] == chunk;
        assert stream[..filled + |chunk|] == stream[..filled] + chunk;
        filled := filled + |chunk|;
      }
      return true;
    }

    /** Copy a chunk into the buffer at an offset. */
    static method Fill(buffer: array<Byte>, at: nat, chunk: seq<Byte>)
      requires at + |chunk| <= buffer.Length
      modifies buffer
      ensures buffer[..at + |chunk|] == old(buffer[..at]) + chunk
    {
      for i := 0 to |chunk|
        invariant buffer[..at + i] == old(buffer[..at]) + chunk[..i]
      {
        buffer[at + i] := chunk[i];
      }
    }

    /** readFramedHeader: length, payload, decoding, with an error for each. */
    method ReadFramedHeader<H>(decode: seq<Byte> -> Option<H>) returns (r: Result<H, Error>)
      modifies this`incoming
      ensures (r, Unread()) == ReadHeader(old(Unread()), decode)
      ensures r == Err(ShortLength) <==> |old(Unread())| < 4
      ensures r == Err(ShortPayload) <==>
                |old(Unread())| >= 4 && |old(Unread())| - 4 < FromBig32(old(Unread())[..4])
      ensures r == Err(BadPayload) <==>
                && |old(Unread())| >= 4 && |old(Unread())| - 4 >= FromBig32(old(Unread())[..4])
                && decode(old(Unread())[4..4 + FromBig32(old(Unread())[..4])]).None?
    {
      ghost var stream := Unread();
      var lenBuf := new Byte[4];
      var ok := ReadFull(lenBuf);
      if !ok {
        return Err(ShortLength);
      }
      assert lenBuf[..] == stream[..4];
      var payloadLen := FromBig32(lenBuf[..]);
      var payload := new Byte[payloadLen];
      ok := ReadFull(payload);
      if !ok {
        return Err(ShortPayload);
      }
      assert payload[..] == stream[4..4 + payloadLen];
      var header := decode(payload[..]);
      if header.None? {
        return Err(BadPayload);
      }
      return Ok(header.value);
    }

    /** A write of which the peer accepts the first so many bytes; it fails if these are not all. */
    method Write(bytes: seq<Byte>, accepted: nat) returns (r: Result<(), Error>)
      modifies this`sent
      ensures sent == old(sent) + (if accepted < |bytes| then bytes[..accepted] else bytes)
      ensures r == if accepted < |bytes| then Err(WriteFailed) else Ok(())
    {
      if accepted < |bytes| {
        sent := sent + bytes[..accepted];
        return Err(WriteFailed);
      }
      sent := sent + bytes;
      return Ok(());
    }

    /** writeFramedHeader: the length in a four-byte buffer, then the payload; what is sent is a prefix of the frame. */
    method WriteFramedHeader<H>(header: H, encode: H -> seq<Byte>, accepted1: nat, accepted2: nat)
      returns (r: Result<(), Error>)
      modifies this`sent
      ensures var frame := Frame(encode(header));
              var k := FramePrefix(|encode(header)|, accepted1, accepted2);
              k <= |frame| && sent == old(sent) + frame[..k] && (r.Ok? <==> k == |frame|)
    {
      var payload := encode(header);
      var lenBuf := new Byte[4];
      var m := |payload| % TWO32;
      lenBuf[0], lenBuf[1] := (m / 0x100_0000) as Byte, (m / 0x1_0000 % 0x100) as Byte;
      lenBuf[2], lenBuf[3] := (m / 0x100 % 0x100) as Byte, (m % 0x100) as Byte;
      assert lenBuf[..] == Big32(|payload|);
      FrameTaken(payload, accepted1, accepted2);
      r := Write(lenBuf[..], accepted1);
      if r.Err? {
        return;
      }
      r := Write(payload, accepted2);
    }
  }

  /** How much of a frame goes out when the two writes accept so many bytes. */
  function FramePrefix(payload: nat, accepted1: nat, accepted2: nat): nat {
    if accepted1 < 4 then accepted1 else if accepted2 < payload then 4 + accepted2 else 4 + payload
  }

  lemma FrameTaken(payload: seq<Byte>, accepted1: nat, accepted2: nat)
    ensures var frame, k := Frame(payload), FramePrefix(|payload|, accepted1, accepted2);
            && |frame| == 4 + |payload|
            && frame[..k] == if accepted1 < 4 then Big32(|payload|)[..accepted1]
                             else Big32(|payload|) + (if accepted2 < |payload| then payload[..accepted2] else payload)
  {
  }

  /** A frame that was cut short is never mistaken for a header. */
  lemma TruncationDetected(payload: seq<Byte>, k: nat)
    requires |payload| < TWO32 && k < |Frame(payload)|
    ensures Unframe(Frame(payload)[..k]).0.Err?
  {
    Big32Inverse(|payload|);
    if k >= 4 {
      assert Frame(payload)[..k][..4] == Big32(|payload|);
    }
  }

  // ----- both ends

  /** A stream cut into segments of the given sizes. */
  function Cut(bytes: seq<Byte>, sizes: seq<nat>): seq<seq<Byte>> {
    if sizes == [] || sizes[0] > |bytes| then [bytes]
    else [bytes[..sizes[0]]] + Cut(bytes[sizes[0]..], sizes[1..])
  }

  lemma {:induction false} CutFlat(bytes: seq<Byte>, sizes: seq<nat>)
    ensures Flat(Cut(bytes, sizes)) == bytes
    decreases |sizes|
  {
    if sizes == [] || sizes[0] > |bytes| {
      assert [bytes][1..] == [];
    } else {
      CutFlat(bytes[sizes[0]..], sizes[1..]);
      assert Cut(bytes, sizes)[1..] == Cut(bytes[sizes[0]..], sizes[1..]);
    }
  }

  /**
    One end writes, the other reads over any segmentation. If both writes go through, the header arrives and
    later bytes stay unread; if one is cut short and the stream ends, the reader reports an error.
   */
  method Transfer<H>(header: H, encode: H -> seq<Byte>, decode: seq<Byte> -> Option<H>,
                     accepted1: nat, accepted2: nat, sizes: seq<nat>, rest: seq<Byte>)
    returns (written: Result<(), Error>, r: Result<H, Error>, unread: seq<Byte>)
    requires decode(encode(header)) == Some(header) && |encode(header)| < TWO32
    ensures written.Ok? ==> r == Ok(header) && unread == rest
    ensures written.Err? ==> r.Err?
  {
    var sender := new Connection([]);
    written := sender.WriteFramedHeader(header, encode, accepted1, accepted2);
    var stream := sender.sent + if written.Ok? then rest else [];
    ghost var k := FramePrefix(|encode(header)|, accepted1, accepted2);
    if written.Ok? {
      assert stream == Frame(encode(header)) + rest;
      HeaderRoundTrip(header, encode, decode, rest);
    } else {
      assert stream == Frame(encode(header))[..k];
      TruncationDetected(encode(header), k);
    }
    CutFlat(stream, sizes);
    var receiver := new Connection(Cut(stream, sizes));
    r := receiver.ReadFramedHeader(decode);
    unread := receiver.Unread();
  }
}
