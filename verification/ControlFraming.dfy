/**
  The control framing of netperf-p3: a little-endian u32 length, then the payload. The reader
  takes whatever arrives, so it may read past the frame; its answer must not depend on that.
 */
module ControlFraming {
  import opened ByteStream
  import opened Machine
  import opened Wrappers

  const READ_SIZE: nat := 8192

  function ToLittleEndian(n: nat): (b: bytes)
    requires n <= U32_MAX
    ensures |b| == 4
    ensures n == b[0] as nat + 0x100 * b[1] as nat + 0x1_0000 * b[2] as nat + 0x100_0000 * b[3] as nat
  {
    FourDigits(n);
    [(n % 0x100) as byte, (n / 0x100 % 0x100) as byte, (n / 0x1_0000 % 0x100) as byte, (n / 0x100_0000) as byte]
  }

  function FromLittleEndian(b: bytes): (n: nat)
    requires |b| == 4
    ensures n <= U32_MAX
  {
    b[0] as nat + 0x100 * (b[1] as nat + 0x100 * (b[2] as nat + 0x100 * b[3] as nat))
  }

  lemma LittleEndianRoundTrip(n: nat)
    requires n <= U32_MAX
    ensures FromLittleEndian(ToLittleEndian(n)) == n
  {
    assert n / 0x100 / 0x100 == n / 0x1_0000 && n / 0x1_0000 / 0x100 == n / 0x100_0000;
  }

  // Overrun: 4 + len does not fit usize and the slice bounds cross.
  datatype Received<T> = Message(message: T) | Nothing | Overrun

  // The length a stream announces, once four bytes of it are there.
  function Announced(u: bytes): nat
    requires |u| >= 4
  {
    FromLittleEndian(u[..4])
  }

  // The whole stream at once: its first frame, decoded.
  function Parse<T>(u: bytes, decode: bytes -> Option<T>): Received<T> {
    if |u| < 4 then Nothing
    else if 4 + Announced(u) >= USIZE then Overrun
    else if |u| < 4 + Announced(u) then Nothing
    else
      match decode(u[4..4 + Announced(u)])
      case None => Nothing
      case Some(m) => Message(m)
  }

  function Frame(payload: bytes): bytes
    requires |payload| <= U32_MAX
  {
    ToLittleEndian(|payload|) + payload
  }

  lemma PrefixSlices(acc: bytes, rest: bytes, n: nat)
    requires 4 <= |acc|
    ensures Announced(acc + rest) == Announced(acc)
    ensures 4 + n <= |acc| ==> (acc + rest)[4..4 + n] == acc[4..4 + n]
  {
    assert (acc + rest)[..4] == acc[..4];
  }

  // recv_msg. The incremental reader agrees with the one-shot parse of all the stream ever
  // carries, and over-reads by less than one buffer.
  method RecvMsg<T>(rx: Reader, decode: bytes -> Option<T>) returns (r: Received<T>, ghost taken: bytes)
    requires rx.Valid()
    modifies rx
    ensures rx.Valid() && taken + rx.Unread() == old(rx.Unread())
    ensures r == Parse(old(rx.Unread()), decode)
    ensures |taken| >= 4 ==> |taken| < 4 + Announced(taken) + READ_SIZE
    ensures |taken| < 4 ==> rx.Unread() == []
  {
    hide FromLittleEndian, ToLittleEndian;
    ghost var u := rx.Unread();
    var acc := [];
    while true
      invariant rx.Valid() && acc + rx.Unread() == u
      invariant |acc| < 4 || |acc| < 4 + Announced(acc) + READ_SIZE
      decreases |rx.Unread()|
    {
      if |acc| >= 4 {
        var len := FromLittleEndian(acc[0..4]);
        PrefixSlices(acc, rx.Unread(), len);
        var end := (4 + len) % USIZE;
        if |acc| >= end {
          assert len == Announced(u);
          // A slice whose bounds cross is a panic.
          if end < 4 { return Overrun, acc; }
          match decode(acc[4..end]) {
            case None => return Nothing, acc;
            case Some(m) => return Message(m), acc;
          }
        }
      }
      var b := rx.Read(READ_SIZE);
      if b == [] {
        assert acc == u;
        return Nothing, acc;
      }
      if |acc| >= 4 { PrefixSlices(acc, b, 0); }
      assert acc + b + rx.Unread() == u;
      acc := acc + b;
    }
  }

  // A frame is read back whatever bytes follow it, precisely when its total length fits usize.
  lemma FrameReadsBack<T>(payload: bytes, rest: bytes, decode: bytes -> Option<T>, m: T)
    requires |payload| <= U32_MAX && decode(payload) == Some(m)
    ensures Parse(Frame(payload) + rest, decode) == Message(m) <==> 4 + |payload| < 0x1_0000_0000
  {
    LittleEndianRoundTrip(|payload|);
    var u := Frame(payload) + rest;
    assert u[..4] == ToLittleEndian(|payload|);
    assert 4 + |payload| <= |u| && u[4..4 + |payload|] == payload;
  }

  // An answer, once given, is never revised by bytes that come later.
  lemma MoreBytesChangeNothing<T>(u: bytes, later: bytes, decode: bytes -> Option<T>)
    requires !Parse(u, decode).Nothing?
    ensures Parse(u + later, decode) == Parse(u, decode)
  {
    PrefixSlices(u, later, Announced(u));
  }

  // A stream starts with a frame exactly when it holds what its length announces.
  lemma StartsWithFrame(u: bytes, payload: bytes)
    requires |payload| <= U32_MAX
    ensures Frame(payload) <= u <==>
              |u| >= 4 + |payload| && Announced(u) == |payload| && payload == u[4..4 + |payload|]
  {
    hide ToLittleEndian, FromLittleEndian;
    LittleEndianRoundTrip(|payload|);
    var f := Frame(payload);
    if f <= u {
      assert u[..4] == f[..4] == ToLittleEndian(|payload|);
      assert u[4..4 + |payload|] == f[4..] == payload;
    }
    if |u| >= 4 + |payload| && Announced(u) == |payload| && payload == u[4..4 + |payload|] {
      AnnouncedBytes(u[..4]);
      assert u[..4 + |payload|] == u[..4] + u[4..4 + |payload|] == f;
    }
  }

  // Nothing comes back exactly when the stream ends inside its first frame or that frame's
  // payload does not decode.
  lemma NothingMeansShortOrGarbled<T>(u: bytes, decode: bytes -> Option<T>)
    requires |u| >= 4 ==> 4 + Announced(u) < USIZE
    ensures Parse(u, decode).Nothing? <==>
              || (forall payload: bytes :: |payload| <= U32_MAX ==> !(Frame(payload) <= u))
              || (exists payload: bytes :: |payload| <= U32_MAX && Frame(payload) <= u && decode(payload).None?)
  {
    hide Frame, FromLittleEndian;
    forall payload: bytes | |payload| <= U32_MAX
      ensures Frame(payload) <= u <==>
                |u| >= 4 + |payload| && Announced(u) == |payload| && payload == u[4..4 + |payload|]
    {
      StartsWithFrame(u, payload);
    }
    if |u| >= 4 && |u| >= 4 + Announced(u) {
      assert Frame(u[4..4 + Announced(u)]) <= u;
    }
  }

  lemma AnnouncedBytes(b: bytes)
    requires |b| == 4
    ensures ToLittleEndian(FromLittleEndian(b)) == b
  {
    hide ToLittleEndian;
    var c := ToLittleEndian(FromLittleEndian(b));
    SameDigits(b[0] as nat, b[1] as nat, b[2] as nat, b[3] as nat, c[0] as nat, c[1] as nat, c[2] as nat, c[3] as nat);
  }
}
