/**
  The control framing of netperf-p2: a big-endian u32 length, then the payload; the reader takes
  exactly one frame off the stream, however the stream is cut.
 */
module Framing {
  import opened ByteStream
  import opened Machine

  // 20 MB, the longest payload a reader accepts.
  const MAX_CONTROL_MESSAGE: nat := 20 * 1024 * 1024

  function ToBigEndian(n: nat): (b: bytes)
    requires n <= U32_MAX
    ensures |b| == 4
    ensures n == 0x100_0000 * b[0] as nat + 0x1_0000 * b[1] as nat + 0x100 * b[2] as nat + b[3] as nat
  {
    FourDigits(n);
    [(n / 0x100_0000) as byte, (n / 0x1_0000 % 0x100) as byte, (n / 0x100 % 0x100) as byte, (n % 0x100) as byte]
  }

  function FromBigEndian(b: bytes): (n: nat)
    requires |b| == 4
    ensures n <= U32_MAX
  {
    ((b[0] as nat * 0x100 + b[1] as nat) * 0x100 + b[2] as nat) * 0x100 + b[3] as nat
  }

  lemma BigEndianRoundTrip(n: nat)
    requires n <= U32_MAX
    ensures FromBigEndian(ToBigEndian(n)) == n
  {
    assert n / 0x100 / 0x100 == n / 0x1_0000 && n / 0x1_0000 / 0x100 == n / 0x100_0000;
  }

  lemma BigEndianInjective(b: bytes)
    requires |b| == 4
    ensures ToBigEndian(FromBigEndian(b)) == b
  {
    hide ToBigEndian;
    var c := ToBigEndian(FromBigEndian(b));
    SameDigits(b[3] as nat, b[2] as nat, b[1] as nat, b[0] as nat, c[3] as nat, c[2] as nat, c[1] as nat, c[0] as nat);
  }

  datatype ReadResult = Payload(payload: bytes) | NoLength | TooLong(size: nat) | Closed

  // What one read does to the bytes on the stream: its result and what is left.
  function ReadFrame(u: bytes): (ReadResult, bytes) {
    if |u| < 4 then (NoLength, [])
    else
      var size := FromBigEndian(u[..4]);
      if size > MAX_CONTROL_MESSAGE then (TooLong(size), u[4..])
      else if |u| < 4 + size then (Closed, [])
      else (Payload(u[4..4 + size]), u[4 + size..])
  }

  function Frame(payload: bytes): bytes
    requires |payload| <= U32_MAX
  {
    ToBigEndian(|payload|) + payload
  }

  // send_control_message; a payload whose length does not fit is an assertion failure.
  method SendControlMessage(payload: bytes) returns (buf: bytes)
    requires |payload| <= U32_MAX
    ensures buf == Frame(payload)
  {
    var a := new byte[4 + |payload|](_ => 0);
    var prefix := ToBigEndian(|payload|);
    for i := 0 to 4
      invariant a[..i] == prefix[..i]
    {
      a[i] := prefix[i];
    }
    for i := 0 to |payload|
      invariant a[..4] == prefix && a[4..4 + i] == payload[..i]
    {
      a[4 + i] := payload[i];
    }
    buf := a[..];
    assert buf == a[..4] + a[4..4 + |payload|];
  }

  lemma Behind(u: bytes, buf: bytes, rest: bytes)
    requires |u| >= 4 && buf + rest == u[4..]
    requires |buf| == FromBigEndian(u[..4]) <= MAX_CONTROL_MESSAGE
    ensures ReadFrame(u) == (Payload(buf), rest)
  {
    assert |u| == 4 + |buf| + |rest|;
    assert u[4..4 + |buf|] == u[4..][..|buf|] == buf;
    assert u[4 + |buf|..] == u[4..][|buf|..] == rest;
  }

  // read_control_message: the length, then reads that never ask for more than what is missing.
  method ReadControlMessage(stream: Reader) returns (r: ReadResult)
    requires stream.Valid()
    modifies stream
    ensures stream.Valid() && (r, stream.Unread()) == ReadFrame(old(stream.Unread()))
  {
    ghost var u := stream.Unread();
    var prefix := stream.ReadExact(4);
    if |prefix| < 4 {
      assert u == prefix;
      return NoLength;
    }
    assert |u| >= 4 && u[..4] == prefix && u[4..] == stream.Unread();
    var messageSize := FromBigEndian(prefix);
    if messageSize > MAX_CONTROL_MESSAGE { return TooLong(messageSize); }
    var buf := [];
    var remaining: nat := messageSize;
    while remaining > 0
      invariant stream.Valid() && buf + stream.Unread() == u[4..]
      invariant |buf| + remaining == messageSize
      decreases remaining
    {
      var more := stream.Read(remaining);
      if more == [] {
        assert u[4..] == buf;
        return Closed;
      }
      buf := buf + more;
      remaining := remaining - |more|;
    }
    Behind(u, buf, stream.Unread());
    r := Payload(buf);
  }

  // ------------------------------------------------------------------- round trips

  // A frame is read back, exactly its own bytes are taken, and whatever follows is left alone,
  // precisely when the payload is no longer than the reader allows.
  lemma FrameRoundTrip(payload: bytes, rest: bytes)
    requires |payload| <= U32_MAX
    ensures ReadFrame(Frame(payload) + rest) == (Payload(payload), rest) <==> |payload| <= 20_971_520
    ensures |payload| > 20_971_520 ==>
              ReadFrame(Frame(payload) + rest) == (TooLong(|payload|), payload + rest)
  {
    var u := Frame(payload) + rest;
    BigEndianRoundTrip(|payload|);
    assert u[..4] == ToBigEndian(|payload|);
    assert u[4..] == payload + rest;
    if |payload| <= MAX_CONTROL_MESSAGE {
      assert u[4..4 + |payload|] == payload && u[4 + |payload|..] == rest;
    }
  }

  function Frames(payloads: seq<bytes>): bytes
    requires forall i :: 0 <= i < |payloads| ==> |payloads[i]| <= U32_MAX
  {
    if payloads == [] then [] else Frame(payloads[0]) + Frames(payloads[1..])
  }

  // Messages written one after the other are read back one after the other, unchanged and in
  // order, in whatever fragments they arrive.
  method ReadAll(stream: Reader, ghost payloads: seq<bytes>, n: nat, ghost rest: bytes) returns (got: seq<bytes>)
    requires stream.Valid() && n == |payloads|
    requires forall i :: 0 <= i < |payloads| ==> |payloads[i]| <= MAX_CONTROL_MESSAGE
    requires stream.Unread() == Frames(payloads) + rest
    modifies stream
    ensures stream.Valid() && got == payloads && stream.Unread() == rest
  {
    hide ToBigEndian, FromBigEndian, ReadFrame;
    got := [];
    for i := 0 to n
      invariant stream.Valid() && got == payloads[..i]
      invariant stream.Unread() == Frames(payloads[i..]) + rest
    {
      assert Frames(payloads[i..]) == Frame(payloads[i]) + Frames(payloads[i + 1..]) by {
        assert payloads[i..][1..] == payloads[i + 1..];
      }
      assert stream.Unread() == Frame(payloads[i]) + (Frames(payloads[i + 1..]) + rest);
      FrameRoundTrip(payloads[i], Frames(payloads[i + 1..]) + rest);
      var r := ReadControlMessage(stream);
      got := got + [r.payload];
    }
    assert payloads[n..] == [];
  }

  // A read takes nothing before it has the length, and never more than one frame: what it does
  // not take is a suffix of what was there, 4 + size bytes further on when it succeeds.
  lemma ReadTakesOneFrame(u: bytes)
    ensures var (r, rest) := ReadFrame(u);
            && (r.Payload? ==> u == Frame(r.payload) + rest && |r.payload| <= MAX_CONTROL_MESSAGE)
            && (r.TooLong? ==> u == ToBigEndian(r.size) + rest && r.size > MAX_CONTROL_MESSAGE)
            && (r.NoLength? <==> |u| < 4)
            && (r.Closed? <==> |u| >= 4 && FromBigEndian(u[..4]) <= MAX_CONTROL_MESSAGE &&
                               |u| < 4 + FromBigEndian(u[..4]))
  {
    if |u| >= 4 {
      BigEndianInjective(u[..4]);
      assert u == u[..4] + u[4..];
      var size := FromBigEndian(u[..4]);
      if size <= MAX_CONTROL_MESSAGE && |u| >= 4 + size {
        assert u[4..] == u[4..4 + size] + u[4 + size..];
      }
    }
  }
}
