/** Initial segments of the natural numbers, used for stream ids. */
module Ids {

  function Below(n: nat): (ids: set<nat>)
    ensures forall i: nat :: i in ids <==> i < n
  {
    if n == 0 then {} else Below(n - 1) + {n - 1}
  }

  lemma {:induction false} CardBelow(n: nat)
    ensures |Below(n)| == n
  {
    if n == 0 {
      assert Below(0) == {};
    } else {
      CardBelow(n - 1);
      assert Below(n) == Below(n - 1) + {n - 1};
    }
  }

  lemma {:induction false} CardSubset(a: set<nat>, b: set<nat>)
    requires a <= b
    ensures |a| <= |b|
    ensures |a| == |b| ==> a == b
  {
    if a != {} {
      var x :| x in a;
      CardSubset(a - {x}, b - {x});
    }
  }

  lemma MapCard(m: map<nat, nat>, n: nat)
    requires m.Keys == Below(n)
    ensures |m| == n
  {
    CardBelow(n);
    assert |m| == |m.Keys|;
  }

  lemma MapRemove(m: map<nat, nat>, id: nat)
    requires id in m
    ensures |m - {id}| == |m| - 1
    ensures (m - {id}).Keys == m.Keys - {id}
  {
    assert (m - {id}).Keys == m.Keys - {id};
    assert |(m - {id}).Keys| == |m - {id}|;
  }

  // A sequence without repetitions drawn from n numbers has at most n elements.
  lemma {:induction false} Pigeonhole(ids: seq<nat>, room: set<nat>)
    requires forall i :: 0 <= i < |ids| ==> ids[i] in room
    requires forall i, j :: 0 <= i < j < |ids| ==> ids[i] != ids[j]
    ensures |ids| <= |room|
  {
    if ids != [] {
      var last := |ids| - 1;
      forall i | 0 <= i < last ensures ids[..last][i] in room - {ids[last]} { }
      Pigeonhole(ids[..last], room - {ids[last]});
    }
  }
}
