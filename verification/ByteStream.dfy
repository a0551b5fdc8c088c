/** A connection as its reader sees it: a reliable byte stream, delivered in arbitrary fragments. */
module ByteStream {

  newtype byte = x: int | 0 <= x < 256

  type bytes = seq<byte>

  function Concat(chunks: seq<bytes>): bytes {
    if chunks == [] then [] else chunks[0] + Concat(chunks[1..])
  }

  // The fragments still to come; none of them is empty. What they hold together is what the
  // writer wrote, how it is cut is up to the network.
  class Reader {
    var chunks: seq<bytes>

    ghost predicate Valid()
      reads this
    {
      forall i :: 0 <= i < |chunks| ==> chunks[i] != []
    }

    ghost function Unread(): bytes
      reads this
    {
      Concat(chunks)
    }

    constructor (chunks: seq<bytes>)
      requires forall i :: 0 <= i < |chunks| ==> chunks[i] != []
      ensures Valid() && Unread() == Concat(chunks)
    {
      this.chunks := chunks;
    }

    // One read of at most `limit` bytes; it returns nothing only at the end of the stream.
    method Read(limit: nat) returns (b: bytes)
      requires Valid() && limit > 0
      modifies this
      ensures Valid() && b + Unread() == old(Unread()) && |b| <= limit
      ensures b == [] <==> old(Unread()) == []
    {
      if chunks == [] { return []; }
      var first := chunks[0];
      assert Unread() == first + Concat(chunks[1..]);
      if |first| <= limit {
        b := first;
        chunks := chunks[1..];
      } else {
        b := first[..limit];
        chunks := [first[limit..]] + chunks[1..];
        assert first == first[..limit] + first[limit..];
        assert Unread() == first[limit..] + Concat(old(chunks)[1..]);
      }
    }

    // A read into an empty buffer only tells whether the stream has ended.
    method AtEnd() returns (ended: bool)
      requires Valid()
      ensures ended <==> Unread() == []
    {
      ended := chunks == [];
      if !ended { assert |chunks[0] + Concat(chunks[1..])| > 0; }
    }

    // Reads exactly `n` bytes, or all there are.
    method ReadExact(n: nat) returns (b: bytes)
      requires Valid()
      modifies this
      ensures Valid() && b + Unread() == old(Unread())
      ensures |b| == n || (|b| < n && Unread() == [])
    {
      hide Concat;
      b := [];
      while |b| < n
        invariant Valid() && b + Unread() == old(Unread()) && |b| <= n
        decreases n - |b|
      {
        var more := Read(n - |b|);
        if more == [] { return; }
        assert b + more + Unread() == b + (more + Unread());
        b := b + more;
      }
    }
  }
}
