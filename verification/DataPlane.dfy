/**
  The data plane of netperf-p3: a connection opens with a cookie of eight bytes, then carries data
  until the sender closes it. Both ends count bytes; the counts must agree.
 */
module DataPlane {
  import opened ByteStream
  import opened Wrappers

  const COOKIE_LEN: nat := 8

  // The part of a StreamStats that says who sent how much.
  datatype ByteCount = ByteCount(sender: bool, bytes: int)

  function Zeros(n: nat): (b: bytes)
    ensures |b| == n
  {
    seq(n, i requires 0 <= i < n => 0 as byte)
  }

  // The writing end of a connection whose reader takes at most `room` more bytes before it goes
  // away. A reader that stays is one with room enough.
  class Writer {
    var sent: bytes
    var room: nat

    constructor (room: nat)
      ensures this.room == room && sent == []
    {
      this.room, sent := room, [];
    }

    // write_all hands back what the reader did not take.
    method WriteAll(buf: bytes) returns (leftover: bytes)
      modifies this
      ensures |leftover| == if |buf| <= old(room) then 0 else |buf| - old(room)
      ensures leftover == buf[|buf| - |leftover|..]
      ensures sent == old(sent) + buf[..|buf| - |leftover|]
      ensures room == old(room) - (|buf| - |leftover|)
    {
      var n := if |buf| <= room then |buf| else room;
      leftover := buf[n..];
      sent, room := sent + buf[..n], room - n;
    }
  }

  // --------------------------------------------------------------------- sending

  predicate Fits(block: nat, rounds: nat, room: nat) {
    rounds * block <= room
  }

  // What `rounds` writes of `block` bytes move when the reader takes `room`.
  function Moved(block: nat, rounds: nat, room: nat): nat {
    if Fits(block, rounds, room) then rounds * block else room
  }

  function Remainder(block: nat, room: nat): nat {
    if block == 0 then 0 else room % block
  }

  // What the sender reports: every round is counted as `block` less what was handed back, so a
  // remainder that is offered again is counted again.
  function Counted(block: nat, rounds: nat, room: nat): int {
    if Fits(block, rounds, room) then rounds * block
    else room / block * block + room % block * (rounds - room / block)
  }

  lemma NothingYet(block: nat, room: nat)
    ensures Fits(block, 0, room) && Moved(block, 0, room) == Counted(block, 0, room) == 0
  {
  }

  // A write that the reader takes in full, in part, or not at all.
  lemma OneWrite(block: nat, round: nat, room: nat)
    ensures Fits(block, round, room) ==> Moved(block, round, room) == Counted(block, round, room) <= room
    ensures Fits(block, round + 1, room) ==>
              && Fits(block, round, room)
              && Moved(block, round, room) + block <= room
              && Moved(block, round + 1, room) == Counted(block, round + 1, room) == Moved(block, round, room) + block
    ensures Fits(block, round, room) && !Fits(block, round + 1, room) ==>
              && Remainder(block, room) == room - Moved(block, round, room) < block
              && Moved(block, round + 1, room) == Counted(block, round + 1, room) == room
    ensures !Fits(block, round, room) ==>
              && !Fits(block, round + 1, room)
              && Remainder(block, room) < block
              && Moved(block, round, room) == Moved(block, round + 1, room) == room
              && Counted(block, round + 1, room) == Counted(block, round, room) + Remainder(block, room)
  {
    assert (round + 1) * block == round * block + block;
    if round * block <= room < round * block + block {
      QuotientIs(room, block, round);
      assert round + 1 - round == 1;
    } else if room < round * block {
      assert room / block <= round by { QuotientBelow(room, block, round); }
      var k, q := room % block, room / block;
      assert k * (round + 1 - q) == k * (round - q) + k;
    }
  }

  lemma MulSign(d: int, b: int)
    requires b >= 0
    ensures d >= 1 ==> d * b >= b
    ensures d <= 0 ==> d * b <= 0
    ensures d <= -1 ==> d * b <= -b
  {
  }

  lemma QuotientIs(a: nat, b: nat, q: nat)
    requires q * b <= a < q * b + b
    ensures a / b == q && a % b == a - q * b
  {
    var d: int := a / b - q;
    assert d * b == a / b * b - q * b;
    MulSign(d, b);
  }

  lemma QuotientBelow(a: nat, b: nat, q: nat)
    requires a < q * b
    ensures b > 0 && a / b < q
  {
    assert b > 0;
    assert a / b * b <= a;
    MulSign(q - a / b, b);
  }

  // Once a write takes nothing, the rounds still to come change neither count.
  lemma NothingMore(block: nat, round: nat, rounds: nat, room: nat)
    requires round <= rounds
    requires block == 0 || (Remainder(block, room) == 0 && !Fits(block, round, room))
    ensures Moved(block, rounds, room) == Moved(block, round, room)
    ensures Counted(block, rounds, room) == Counted(block, round, room)
  {
    if block > 0 {
      assert rounds * block >= round * block;
    }
  }

  // The timed write loop: `rounds` is how often the clock is still short of the deadline.
  method WriteData(tx: Writer, block: nat, rounds: nat) returns (s: ByteCount)
    modifies tx
    ensures s == ByteCount(true, Counted(block, rounds, old(tx.room)))
    ensures tx.sent == old(tx.sent) + Zeros(Moved(block, rounds, old(tx.room)))
  {
    hide Counted, Moved, Fits, Remainder;
    ghost var room, before := tx.room, tx.sent;
    var buf := Zeros(block);
    var total, round: nat := 0, 0;
    NothingYet(block, room);
    while round < rounds
      invariant round <= rounds
      invariant tx.sent == before + Zeros(Moved(block, round, room))
      invariant tx.room == room - Moved(block, round, room)
      invariant total == Counted(block, round, room)
      invariant Fits(block, round, room) ==> buf == Zeros(block)
      invariant !Fits(block, round, room) ==> tx.room == 0 && |buf| == block - Remainder(block, room)
      decreases rounds - round
    {
      OneWrite(block, round, room);
      var leftover := tx.WriteAll(buf);
      var wrote := block - |leftover|;
      total := total + wrote;
      buf := if leftover == [] then Zeros(block) else leftover;
      round := round + 1;
      if wrote == 0 {
        NothingMore(block, round, rounds, room);
        break;
      }
    }
    s := ByteCount(true, total);
  }

  // The sender never reports too little, and reports what really moved exactly when no write that
  // the reader took in part was followed by another one.
  lemma CountIsExact(block: nat, rounds: nat, room: nat)
    ensures Counted(block, rounds, room) >= Moved(block, rounds, room)
    ensures Counted(block, rounds, room) == Moved(block, rounds, room) <==>
              Fits(block, rounds, room) || Remainder(block, room) == 0 || Fits(block, rounds - 1, room)
  {
    if !Fits(block, rounds, room) {
      var q, k := room / block, room % block;
      QuotientBelow(room, block, rounds);
      assert room == q * block + k;
      ProductIsFactor(k, rounds - q);
      assert (rounds - 1) * block <= room <==> rounds - q == 1 by {
        MulSign(rounds - 1 - q, block);
        assert (rounds - 1) * block == (rounds - 1 - q) * block + q * block;
      }
    }
  }

  lemma ProductIsFactor(k: nat, d: nat)
    requires d >= 1
    ensures k * d >= k && (k * d == k <==> k == 0 || d == 1)
  {
    if d >= 2 { assert k * d >= k * 2; }
  }

  // ------------------------------------------------------------------- receiving

  // Whether a receiver that still has `left` bytes to read comes to the end of its stream: with
  // blocks of length 0 it has no room for them and reads nothing for ever.
  predicate Ends(block: nat, left: nat) {
    block > 0 || left == 0
  }

  // None: it never returns.
  method ReadData(rx: Reader, block: nat, already: nat) returns (s: Option<ByteCount>)
    requires rx.Valid()
    modifies rx
    ensures rx.Valid()
    ensures s.Some? <==> Ends(block, |old(rx.Unread())|)
    ensures s.Some? ==> rx.Unread() == [] && s.value == ByteCount(false, already + |old(rx.Unread())|)
  {
    var total := already;
    if block == 0 {
      var ended := rx.AtEnd();
      return if ended then Some(ByteCount(false, total)) else None;
    }
    while true
      invariant rx.Valid() && total + |rx.Unread()| == already + |old(rx.Unread())|
      decreases |rx.Unread()|
    {
      var b := rx.Read(block);
      if b == [] { break; }
      total := total + |b|;
    }
    s := Some(ByteCount(false, total));
  }

  // -------------------------------------------------------- the two ends of a connection

  function Least(a: nat, b: nat): nat {
    if a <= b then a else b
  }

  // What the client puts on its half of the connection.
  function ClientWrites(cookie: bytes, send: bool, block: nat, rounds: nat, room: nat): bytes {
    var n := Least(|cookie|, room);
    cookie[..n] + if send then Zeros(Moved(block, rounds, room - n)) else []
  }

  function ClientReports(cookie: bytes, send: bool, recv: bool, block: nat, rounds: nat, room: nat,
                         arrived: nat): seq<ByteCount> {
    (if send then [ByteCount(true, Counted(block, rounds, room - Least(|cookie|, room)))] else [])
    + (if recv then [ByteCount(false, arrived)] else [])
  }

  predicate Authorised(expected: bytes, u: bytes) {
    |u| >= COOKIE_LEN && u[..COOKIE_LEN] == expected
  }

  function ServerReports(expected: bytes, recv: bool, send: bool, block: nat, rounds: nat, room: nat,
                         u: bytes): seq<ByteCount> {
    if !Authorised(expected, u) then []
    else
      (if send then [ByteCount(true, Counted(block, rounds, room))] else [])
      + (if recv then [ByteCount(false, |u| - COOKIE_LEN)] else [])
  }

  // None: it never returns.
  method ClientConn(tx: Writer, rx: Reader, cookie: bytes, send: bool, recv: bool, block: nat, rounds: nat)
    returns (out: Option<seq<ByteCount>>)
    requires rx.Valid()
    modifies tx, rx
    ensures tx.sent == old(tx.sent) + ClientWrites(cookie, send, block, rounds, old(tx.room))
    ensures out == if recv && !Ends(block, |old(rx.Unread())|) then None
                   else Some(ClientReports(cookie, send, recv, block, rounds, old(tx.room), |old(rx.Unread())|))
  {
    hide Counted, Moved, Ends;
    var reports := [];
    var _ := tx.WriteAll(cookie);
    ghost var n := Least(|cookie|, old(tx.room));
    assert tx.sent == old(tx.sent) + cookie[..n];
    if send {
      var s := WriteData(tx, block, rounds);
      assert tx.sent == old(tx.sent) + (cookie[..n] + Zeros(Moved(block, rounds, old(tx.room) - n)));
      reports := reports + [s];
    }
    if recv {
      var r := ReadData(rx, block, 0);
      if r.None? { return None; }
      reports := reports + [r.value];
    }
    assert reports == ClientReports(cookie, send, recv, block, rounds, old(tx.room), |old(rx.Unread())|);
    out := Some(reports);
  }

  // The head of the stream is checked before any of it is counted, however it is cut; what came
  // in together with the cookie, the rest of `head`, is counted as data. None: it never returns.
  method ServerConn(rx: Reader, tx: Writer, expected: bytes, recv: bool, send: bool, block: nat, rounds: nat)
    returns (out: Option<seq<ByteCount>>, ghost head: bytes)
    requires rx.Valid()
    modifies rx, tx
    ensures out.Some? ==>
              out.value == ServerReports(expected, recv, send, block, rounds, old(tx.room), old(rx.Unread()))
    ensures head <= old(rx.Unread()) && (|head| < COOKIE_LEN ==> head == old(rx.Unread()))
    ensures out.None? <==>
              Authorised(expected, old(rx.Unread())) && recv && !Ends(block, |old(rx.Unread())| - |head|)
    ensures tx.sent == old(tx.sent) +
              if send && Authorised(expected, old(rx.Unread())) then Zeros(Moved(block, rounds, old(tx.room))) else []
  {
    hide Counted, Moved;
    ghost var u := rx.Unread();
    assert tx.sent + [] == tx.sent;
    var acc := [];
    while |acc| < COOKIE_LEN
      invariant rx.Valid() && acc + rx.Unread() == u
      invariant tx.sent == old(tx.sent) && tx.room == old(tx.room)
      decreases |rx.Unread()|
    {
      var b := rx.Read(if block < COOKIE_LEN then COOKIE_LEN else block);
      if b == [] { break; }
      acc := acc + b;
    }
    if |acc| >= COOKIE_LEN { assert u[..COOKIE_LEN] == acc[..COOKIE_LEN]; } else { assert u == acc; }
    if |acc| < COOKIE_LEN || acc[..COOKIE_LEN] != expected { return Some([]), acc; }
    var leftover := |acc| - COOKIE_LEN;
    var reports := [];
    if send {
      var s := WriteData(tx, block, rounds);
      reports := reports + [s];
    }
    if recv {
      var r := ReadData(rx, block, leftover);
      if r.None? { return None, acc; }
      reports := reports + [r.value];
    }
    out, head := Some(reports), acc;
  }

  // --------------------------------------------------------------------- a whole test

  datatype Direction = Forward | Reverse | Bidir

  // (sending, receiving)
  function Roles(dir: Direction, server: bool): (bool, bool) {
    match dir
    case Bidir => (true, true)
    case Reverse => (server, !server)
    case Forward => (!server, server)
  }

  // One data connection: whether the client of the test opened it, the cookie it presents, what each
  // half carries before its reader goes away, and how often each sender finds time left.
  datatype Link = Link(own: bool, cookie: bytes, up: nat, upRounds: nat, down: nat, downRounds: nat)

  function Up(link: Link, dir: Direction, block: nat): bytes {
    ClientWrites(link.cookie, Roles(dir, false).0, block, link.upRounds, link.up)
  }

  function Down(link: Link, expected: bytes, dir: Direction, block: nat): bytes {
    if Roles(dir, true).0 && Authorised(expected, Up(link, dir, block))
    then Zeros(Moved(block, link.downRounds, link.down)) else []
  }

  function AtClient(link: Link, expected: bytes, dir: Direction, block: nat): seq<ByteCount> {
    ClientReports(link.cookie, Roles(dir, false).0, Roles(dir, false).1, block, link.upRounds, link.up,
      |Down(link, expected, dir, block)|)
  }

  function AtServer(link: Link, expected: bytes, dir: Direction, block: nat): seq<ByteCount> {
    ServerReports(expected, Roles(dir, true).1, Roles(dir, true).0, block, link.downRounds, link.down,
      Up(link, dir, block))
  }

  // A reader that stays to the end, or leaves where it does no harm to the count.
  predicate Undisturbed(block: nat, rounds: nat, room: nat) {
    Fits(block, rounds, room) || Remainder(block, room) == 0 || Fits(block, rounds - 1, room)
  }

  // One direction of one connection, as its two ends report it.
  predicate Conserved(s: ByteCount, r: ByteCount, block: nat, rounds: nat, room: nat) {
    && s.sender && !r.sender && s.bytes >= r.bytes
    && (s.bytes == r.bytes <==> Undisturbed(block, rounds, room))
  }

  // The connection presents the right cookie, and all of it.
  predicate Accepted(link: Link, expected: bytes) {
    link.up >= COOKIE_LEN && link.cookie == expected
  }

  lemma EmptyBlocksMoveNothing(rounds: nat, room: nat)
    ensures Moved(0, rounds, room) == 0
  {
    assert rounds * 0 == 0;
  }

  // A connection is counted by the server exactly when its cookie is right, and then each
  // direction in use is counted alike at both ends exactly when its reader did no harm. Neither
  // receiver hangs: with blocks of length 0, which both ends agree on, there is nothing to read.
  lemma ConnectionConserves(link: Link, expected: bytes, dir: Direction, block: nat)
    requires |link.cookie| == |expected| == 8
    ensures var c := AtClient(link, expected, dir, block);
            var s := AtServer(link, expected, dir, block);
            && |c| == (if dir.Bidir? then 2 else 1)
            && |s| == (if link.up >= 8 && link.cookie == expected then |c| else 0)
            && (Roles(dir, false).1 ==> Ends(block, |Down(link, expected, dir, block)|))
            && (link.up >= 8 && link.cookie == expected && Roles(dir, true).1 ==>
                  Ends(block, |Up(link, dir, block)| - 8))
            && (link.up >= 8 && link.cookie == expected ==>
                  match dir
                  case Forward => Conserved(c[0], s[0], block, link.upRounds, link.up - 8)
                  case Reverse => Conserved(s[0], c[0], block, link.downRounds, link.down)
                  case Bidir =>
                    && Conserved(c[0], s[1], block, link.upRounds, link.up - 8)
                    && Conserved(s[0], c[1], block, link.downRounds, link.down))
  {
    hide Counted, Moved, Fits, Remainder;
    if block == 0 {
      EmptyBlocksMoveNothing(link.downRounds, link.down);
      if link.up >= COOKIE_LEN { EmptyBlocksMoveNothing(link.upRounds, link.up - COOKIE_LEN); }
    }
    CookieFirst(link, expected, dir, block);
    if link.up >= COOKIE_LEN { CountIsExact(block, link.upRounds, link.up - COOKIE_LEN); }
    CountIsExact(block, link.downRounds, link.down);
  }

  lemma CookieFirst(link: Link, expected: bytes, dir: Direction, block: nat)
    requires |link.cookie| == |expected| == COOKIE_LEN
    ensures var u := Up(link, dir, block);
            && (Authorised(expected, u) <==> Accepted(link, expected))
            && (link.up >= COOKIE_LEN ==>
                  |u| == COOKIE_LEN + if dir.Reverse? then 0 else Moved(block, link.upRounds, link.up - COOKIE_LEN))
  {
    var u := Up(link, dir, block);
    if link.up >= COOKIE_LEN {
      assert u[..COOKIE_LEN] == link.cookie;
    } else {
      assert Fits(block, 0, 0) && Moved(block, link.upRounds, 0) == 0;
    }
  }

  // run_streams joins the reports of all connections into one list, in the order of the
  // connections, and to_results numbers that list.
  function Flatten<T>(outs: seq<seq<T>>): seq<T> {
    if outs == [] then [] else Flatten(outs[..|outs| - 1]) + outs[|outs| - 1]
  }

  function ToResults<T>(streams: seq<T>): map<nat, T> {
    map id: nat | id < |streams| :: streams[id]
  }

  function AtClients(links: seq<Link>, expected: bytes, dir: Direction, block: nat): (outs: seq<seq<ByteCount>>)
    ensures |outs| == |links|
  {
    seq(|links|, i requires 0 <= i < |links| =>
      if links[i].own then AtClient(links[i], expected, dir, block) else [])
  }

  function AtServers(links: seq<Link>, expected: bytes, dir: Direction, block: nat): (outs: seq<seq<ByteCount>>)
    ensures |outs| == |links|
  {
    seq(|links|, i requires 0 <= i < |links| => AtServer(links[i], expected, dir, block))
  }

  // How many connections reported anything.
  function Kept<T>(outs: seq<seq<T>>): nat {
    if outs == [] then 0 else Kept(outs[..|outs| - 1]) + if outs[|outs| - 1] == [] then 0 else 1
  }

  lemma {:induction false} FlattenAt<T>(outs: seq<seq<T>>, i: nat, k: nat)
    requires i < |outs| && k < |outs[i]|
    ensures |Flatten(outs[..i])| + k < |Flatten(outs)|
    ensures Flatten(outs)[|Flatten(outs[..i])| + k] == outs[i][k]
  {
    var last := |outs| - 1;
    if i < last {
      assert outs[..last][..i] == outs[..i];
      FlattenAt(outs[..last], i, k);
    }
  }

  lemma {:induction false} FlattenSize<T>(outs: seq<seq<T>>, m: nat)
    requires forall i :: 0 <= i < |outs| ==> |outs[i]| == 0 || |outs[i]| == m
    requires 1 <= m <= 2
    ensures |Flatten(outs)| == m * Kept(outs)
  {
    if outs != [] { FlattenSize(outs[..|outs| - 1], m); }
  }

  lemma {:induction false} KeptSubset<T>(a: seq<seq<T>>, b: seq<seq<T>>)
    requires |a| == |b| && forall i :: 0 <= i < |a| && a[i] != [] ==> b[i] != []
    ensures Kept(a) <= Kept(b)
    ensures Kept(a) == Kept(b) <==> forall i :: 0 <= i < |b| && b[i] != [] ==> a[i] != []
  {
    if a != [] {
      var last := |a| - 1;
      KeptSubset(a[..last], b[..last]);
      assert (forall i :: 0 <= i < |b| && b[i] != [] ==> a[i] != []) ==> (b[last] != [] ==> a[last] != []);
      assert forall i :: 0 <= i < last ==> a[..last][i] == a[i] && b[..last][i] == b[i];
    }
  }

  function PerConnection(dir: Direction): nat {
    if dir.Bidir? then 2 else 1
  }

  ghost predicate EightByteCookies(links: seq<Link>, expected: bytes) {
    |expected| == COOKIE_LEN && forall j :: 0 <= j < |links| ==> |links[j].cookie| == COOKIE_LEN
  }

  // An own connection is reported by the client, an accepted one by the server, each with all
  // the reports the direction asks for.
  lemma Shapes(links: seq<Link>, expected: bytes, dir: Direction, block: nat, i: nat)
    requires EightByteCookies(links, expected) && i <= |links|
    ensures var c, s := AtClients(links, expected, dir, block), AtServers(links, expected, dir, block);
            && (forall j :: 0 <= j < |links| ==> |c[j]| == if links[j].own then PerConnection(dir) else 0)
            && (forall j :: 0 <= j < |links| ==>
                  |s[j]| == if Accepted(links[j], expected) then PerConnection(dir) else 0)
            && |Flatten(c[..i])| == PerConnection(dir) * Kept(c[..i])
            && |Flatten(s[..i])| == PerConnection(dir) * Kept(s[..i])
  {
    hide AtClient, AtServer, Kept, Flatten, Conserved;
    var c, s := AtClients(links, expected, dir, block), AtServers(links, expected, dir, block);
    forall j | 0 <= j < |links|
      ensures |c[j]| == if links[j].own then PerConnection(dir) else 0
      ensures |s[j]| == if Accepted(links[j], expected) then PerConnection(dir) else 0
    {
      ConnectionConserves(links[j], expected, dir, block);
    }
    FlattenSize(c[..i], PerConnection(dir));
    FlattenSize(s[..i], PerConnection(dir));
  }

  // Under which ids the k-th report of connection i is found: each end only counts the connections
  // it has reports of, the client its own, the server the accepted ones.
  lemma ResultsOfConnection(links: seq<Link>, expected: bytes, dir: Direction, block: nat, i: nat, k: nat)
    requires EightByteCookies(links, expected) && i < |links| && k < PerConnection(dir)
    ensures var outs := AtClients(links, expected, dir, block);
            var id := PerConnection(dir) * Kept(outs[..i]) + k;
            links[i].own ==>
              k < |outs[i]| && id in ToResults(Flatten(outs)) && ToResults(Flatten(outs))[id] == outs[i][k]
    ensures var outs := AtServers(links, expected, dir, block);
            var id := PerConnection(dir) * Kept(outs[..i]) + k;
            Accepted(links[i], expected) ==>
              k < |outs[i]| && id in ToResults(Flatten(outs)) && ToResults(Flatten(outs))[id] == outs[i][k]
  {
    hide AtClients, AtServers, Kept, Flatten, Accepted;
    Shapes(links, expected, dir, block, i);
    if links[i].own { FlattenAt(AtClients(links, expected, dir, block), i, k); }
    if Accepted(links[i], expected) { FlattenAt(AtServers(links, expected, dir, block), i, k); }
  }

  // Where a report came from: its connection and its place among that connection's reports.
  function Origins<T>(outs: seq<seq<T>>): seq<seq<(nat, nat)>> {
    seq(|outs|, i requires 0 <= i < |outs| => seq(|outs[i]|, k requires 0 <= k < |outs[i]| => (i, k)))
  }

  function OriginOf<T>(outs: seq<seq<T>>): map<nat, (nat, nat)> {
    ToResults(Flatten(Origins(outs)))
  }

  lemma {:induction false} SameShape<S, T>(a: seq<seq<S>>, b: seq<seq<T>>)
    requires |a| == |b| && forall i :: 0 <= i < |a| ==> |a[i]| == |b[i]|
    ensures |Flatten(a)| == |Flatten(b)|
  {
    if a != [] { SameShape(a[..|a| - 1], b[..|b| - 1]); }
  }

  // Every id leads to a report, and back to where it came from.
  lemma {:induction false} FlattenFrom<T>(outs: seq<seq<T>>, id: nat) returns (i: nat, k: nat)
    requires id < |Flatten(outs)|
    ensures i < |outs| && k < |outs[i]| && id == |Flatten(outs[..i])| + k
  {
    var last := |outs| - 1;
    if id < |Flatten(outs[..last])| {
      i, k := FlattenFrom(outs[..last], id);
      assert outs[..last][..i] == outs[..i];
    } else {
      i, k := last, id - |Flatten(outs[..last])|;
    }
  }

  lemma OriginAt<T>(outs: seq<seq<T>>, i: nat, k: nat)
    requires i < |outs| && k < |outs[i]|
    ensures var id := |Flatten(outs[..i])| + k; id in OriginOf(outs) && OriginOf(outs)[id] == (i, k)
  {
    FlattenAt(Origins(outs), i, k);
    SameShape(Origins(outs)[..i], outs[..i]);
  }

  // An origin is where the result of that id came from.
  lemma ResultsHaveOrigins<T>(outs: seq<seq<T>>, id: nat)
    ensures id in OriginOf(outs) <==> id in ToResults(Flatten(outs))
    ensures id in OriginOf(outs) ==>
              var (i, k) := OriginOf(outs)[id];
              i < |outs| && k < |outs[i]| && ToResults(Flatten(outs))[id] == outs[i][k]
  {
    hide Flatten;
    SameShape(Origins(outs), outs);
    if id in OriginOf(outs) {
      var i, k := FlattenFrom(outs, id);
      OriginAt(outs, i, k);
      FlattenAt(outs, i, k);
    }
  }

  // The server files every report under the id the client files the same connection's under.
  ghost predicate IdsMatch(links: seq<Link>, expected: bytes, dir: Direction, block: nat) {
    var c, s := OriginOf(AtClients(links, expected, dir, block)), OriginOf(AtServers(links, expected, dir, block));
    forall id :: id in s ==> id in c && s[id] == c[id]
  }

  // Connection i comes at the same place among the client's own ones as among the accepted ones.
  ghost predicate SameRank(links: seq<Link>, expected: bytes, dir: Direction, block: nat, i: nat)
    requires i < |links|
  {
    && links[i].own
    && Kept(AtClients(links, expected, dir, block)[..i]) == Kept(AtServers(links, expected, dir, block)[..i])
  }

  lemma RanksFromIds(links: seq<Link>, expected: bytes, dir: Direction, block: nat, i: nat)
    requires EightByteCookies(links, expected) && i < |links| && Accepted(links[i], expected)
    requires IdsMatch(links, expected, dir, block)
    ensures SameRank(links, expected, dir, block, i)
  {
    hide AtClients, AtServers, Kept, Flatten, Accepted, OriginOf;
    var c, s := AtClients(links, expected, dir, block), AtServers(links, expected, dir, block);
    Shapes(links, expected, dir, block, i);
    OriginAt(s, i, 0);
    var id := |Flatten(s[..i])|;
    ResultsHaveOrigins(c, id);
    var i', k' := FlattenFrom(c, id);
    OriginAt(c, i', k');
  }

  lemma IdFromRank(links: seq<Link>, expected: bytes, dir: Direction, block: nat, id: nat)
    requires EightByteCookies(links, expected)
    requires forall i: nat :: i < |links| && Accepted(links[i], expected) ==> SameRank(links, expected, dir, block, i)
    requires id in OriginOf(AtServers(links, expected, dir, block))
    ensures var c := OriginOf(AtClients(links, expected, dir, block));
            var s := OriginOf(AtServers(links, expected, dir, block));
            id in c && s[id] == c[id]
  {
    hide AtClients, AtServers, Kept, Flatten, Accepted, OriginOf;
    var c, s := AtClients(links, expected, dir, block), AtServers(links, expected, dir, block);
    ResultsHaveOrigins(s, id);
    var i, k := FlattenFrom(s, id);
    Shapes(links, expected, dir, block, i);
    assert Accepted(links[i], expected) && SameRank(links, expected, dir, block, i);
    OriginAt(s, i, k);
    OriginAt(c, i, k);
  }

  // Only own connections are accepted, and none of them was refused before one that was not.
  predicate OwnFirst(links: seq<Link>, expected: bytes) {
    forall j :: 0 <= j < |links| && Accepted(links[j], expected) ==>
      links[j].own && forall i :: 0 <= i < j && links[i].own ==> Accepted(links[i], expected)
  }

  lemma RankExactly(links: seq<Link>, expected: bytes, dir: Direction, block: nat, j: nat)
    requires EightByteCookies(links, expected) && j < |links|
    requires forall i :: 0 <= i <= j && Accepted(links[i], expected) ==> links[i].own
    ensures Kept(AtServers(links, expected, dir, block)[..j]) == Kept(AtClients(links, expected, dir, block)[..j]) <==>
              forall i :: 0 <= i < j && links[i].own ==> Accepted(links[i], expected)
  {
    hide AtClients, AtServers, Kept, Flatten, Accepted;
    var c, s := AtClients(links, expected, dir, block), AtServers(links, expected, dir, block);
    Shapes(links, expected, dir, block, j);
    forall i | 0 <= i < j
      ensures c[..j][i] != [] <==> links[i].own
      ensures s[..j][i] != [] <==> Accepted(links[i], expected)
    {
      assert c[..j][i] == c[i] && s[..j][i] == s[i];
    }
    KeptSubset(s[..j], c[..j]);
  }

  // So the ids match exactly under that condition.
  lemma IdsMatchExactly(links: seq<Link>, expected: bytes, dir: Direction, block: nat)
    requires EightByteCookies(links, expected)
    ensures IdsMatch(links, expected, dir, block) <==> OwnFirst(links, expected)
  {
    hide AtClients, AtServers, Kept, Flatten, Accepted, OriginOf;
    if IdsMatch(links, expected, dir, block) {
      forall j: nat | j < |links| && Accepted(links[j], expected) ensures SameRank(links, expected, dir, block, j) {
        RanksFromIds(links, expected, dir, block, j);
      }
      forall j | 0 <= j < |links| && Accepted(links[j], expected)
        ensures links[j].own && forall i :: 0 <= i < j && links[i].own ==> Accepted(links[i], expected)
      {
        RankExactly(links, expected, dir, block, j);
      }
    }
    if OwnFirst(links, expected) {
      forall j: nat | j < |links| && Accepted(links[j], expected) ensures SameRank(links, expected, dir, block, j) {
        RankExactly(links, expected, dir, block, j);
      }
      forall id | id in OriginOf(AtServers(links, expected, dir, block))
        ensures var c := OriginOf(AtClients(links, expected, dir, block));
                id in c && OriginOf(AtServers(links, expected, dir, block))[id] == c[id]
      {
        IdFromRank(links, expected, dir, block, id);
      }
    }
  }
}
