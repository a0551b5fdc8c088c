/**
  The SUM lines of the final report: totals over two hash maps of results, whose iteration order is
  arbitrary.
 */
module Summary {
  import opened Wrappers
  import Stats

  type StreamStats = Stats.StreamStats

  type Results = map<nat, StreamStats>

  datatype Totals = Totals(senderBytes: nat, receiverBytes: nat, senderMillis: nat, receiverMillis: nat)

  // The lines printed for a stream: its local result and, unless the test is bidirectional, its
  // remote one.
  function Lines(local: Results, remote: Results, bidir: bool, id: nat): seq<StreamStats> {
    (if id in local then [local[id]] else [])
    + (if !bidir && id in local && id in remote then [remote[id]] else [])
  }

  function LineBytes(line: StreamStats, sender: bool): nat {
    if line.sender == sender then line.bytesTransferred else 0
  }

  function LineMillis(line: StreamStats, sender: bool): nat {
    if line.sender == sender then line.durationMillis else 0
  }

  function Max(a: nat, b: nat): nat {
    if a >= b then a else b
  }

  function BytesOf(lines: seq<StreamStats>, sender: bool): nat {
    if lines == [] then 0 else LineBytes(lines[0], sender) + BytesOf(lines[1..], sender)
  }

  // The longest of the lines of one kind; 0 when there is none.
  function LongestOf(lines: seq<StreamStats>, sender: bool): nat {
    if lines == [] then 0 else Max(LineMillis(lines[0], sender), LongestOf(lines[1..], sender))
  }

  lemma OneOrTwoLines(a: StreamStats, b: StreamStats, sender: bool)
    ensures BytesOf([a], sender) == LineBytes(a, sender)
    ensures LongestOf([a], sender) == LineMillis(a, sender)
    ensures BytesOf([a, b], sender) == LineBytes(a, sender) + LineBytes(b, sender)
    ensures LongestOf([a, b], sender) == Max(LineMillis(a, sender), LineMillis(b, sender))
  {
    assert [a][1..] == [] && [a, b][1..] == [b] && [b][1..] == [];
    assert BytesOf([b], sender) == LineBytes(b, sender);
    assert LongestOf([b], sender) == LineMillis(b, sender);
  }

  lemma LinesAre(local: Results, remote: Results, bidir: bool, id: nat, sender: bool)
    requires id in local
    ensures var lines := Lines(local, remote, bidir, id);
            if !bidir && id in remote
            then
              && BytesOf(lines, sender) == LineBytes(local[id], sender) + LineBytes(remote[id], sender)
              && LongestOf(lines, sender) == Max(LineMillis(local[id], sender), LineMillis(remote[id], sender))
            else
              && BytesOf(lines, sender) == LineBytes(local[id], sender)
              && LongestOf(lines, sender) == LineMillis(local[id], sender)
  {
    hide BytesOf, LongestOf;
    if !bidir && id in remote {
      OneOrTwoLines(local[id], remote[id], sender);
      assert Lines(local, remote, bidir, id) == [local[id], remote[id]];
    } else {
      OneOrTwoLines(local[id], local[id], sender);
      assert Lines(local, remote, bidir, id) == [local[id]];
    }
  }

  // A sum over a set does not depend on the order the set is visited in.
  ghost function Sum(ids: set<nat>, f: nat -> nat): nat {
    if ids == {} then 0 else var id :| id in ids; f(id) + Sum(ids - {id}, f)
  }

  lemma {:induction false} SumRemove(ids: set<nat>, f: nat -> nat, id: nat)
    requires id in ids
    ensures Sum(ids, f) == f(id) + Sum(ids - {id}, f)
  {
    var first :| first in ids && Sum(ids, f) == f(first) + Sum(ids - {first}, f);
    if first != id {
      SumRemove(ids - {first}, f, id);
      SumRemove(ids - {id}, f, first);
      assert ids - {first} - {id} == ids - {id} - {first};
    }
  }

  lemma {:induction false} SumAgrees(ids: set<nat>, f: nat -> nat, g: nat -> nat)
    requires forall id :: id in ids ==> f(id) == g(id)
    ensures Sum(ids, f) == Sum(ids, g)
  {
    if ids != {} {
      var id :| id in ids;
      SumRemove(ids, f, id);
      SumRemove(ids, g, id);
      SumAgrees(ids - {id}, f, g);
    }
  }

  function BytesAt(local: Results, remote: Results, bidir: bool, sender: bool): nat -> nat {
    id => BytesOf(Lines(local, remote, bidir, id), sender)
  }

  function LongestAt(local: Results, remote: Results, bidir: bool, sender: bool): nat -> nat {
    id => LongestOf(Lines(local, remote, bidir, id), sender)
  }

  ghost predicate IsMax(ids: set<nat>, f: nat -> nat, m: nat) {
    && (forall id :: id in ids ==> f(id) <= m)
    && (m > 0 ==> exists id :: id in ids && f(id) == m)
  }

  ghost predicate IsTotals(t: Totals, local: Results, remote: Results, bidir: bool, ids: set<nat>) {
    && t.senderBytes == Sum(ids, BytesAt(local, remote, bidir, true))
    && t.receiverBytes == Sum(ids, BytesAt(local, remote, bidir, false))
    && IsMax(ids, LongestAt(local, remote, bidir, true), t.senderMillis)
    && IsMax(ids, LongestAt(local, remote, bidir, false), t.receiverMillis)
  }

  function AddLine(t: Totals, line: StreamStats): Totals {
    if line.sender
    then t.(senderBytes := t.senderBytes + line.bytesTransferred,
            senderMillis := Max(t.senderMillis, line.durationMillis))
    else t.(receiverBytes := t.receiverBytes + line.bytesTransferred,
            receiverMillis := Max(t.receiverMillis, line.durationMillis))
  }

  lemma LinesAdded(t: Totals, u: Totals, local: Results, remote: Results, bidir: bool, id: nat)
    requires id in local
    requires u == if !bidir && id in remote then AddLine(AddLine(t, local[id]), remote[id]) else AddLine(t, local[id])
    ensures u.senderBytes == t.senderBytes + BytesAt(local, remote, bidir, true)(id)
    ensures u.receiverBytes == t.receiverBytes + BytesAt(local, remote, bidir, false)(id)
    ensures u.senderMillis == Max(t.senderMillis, LongestAt(local, remote, bidir, true)(id))
    ensures u.receiverMillis == Max(t.receiverMillis, LongestAt(local, remote, bidir, false)(id))
  {
    hide BytesOf, LongestOf, Lines;
    LinesAre(local, remote, bidir, id, true);
    LinesAre(local, remote, bidir, id, false);
  }

  lemma Extend(ids: set<nat>, f: nat -> nat, id: nat)
    requires id !in ids
    ensures Sum(ids + {id}, f) == Sum(ids, f) + f(id)
    ensures forall m: nat :: IsMax(ids, f, m) ==> IsMax(ids + {id}, f, Max(m, f(id)))
  {
    assert ids + {id} - {id} == ids;
    SumRemove(ids + {id}, f, id);
    forall m: nat | IsMax(ids, f, m) ensures IsMax(ids + {id}, f, Max(m, f(id))) {
      if 0 < m && m >= f(id) {
        var i :| i in ids && f(i) == m;
        assert i in ids + {id};
      }
      assert id in ids + {id};
    }
  }

  // The accumulators after the lines of one more stream.
  lemma TotalsExtend(t: Totals, u: Totals, local: Results, remote: Results, bidir: bool, ids: set<nat>, id: nat)
    requires IsTotals(t, local, remote, bidir, ids) && id in local && id !in ids
    requires u == if !bidir && id in remote then AddLine(AddLine(t, local[id]), remote[id]) else AddLine(t, local[id])
    ensures IsTotals(u, local, remote, bidir, ids + {id})
  {
    hide BytesAt, LongestAt, Sum, IsMax, AddLine;
    LinesAdded(t, u, local, remote, bidir, id);
    Extend(ids, BytesAt(local, remote, bidir, true), id);
    Extend(ids, BytesAt(local, remote, bidir, false), id);
    Extend(ids, LongestAt(local, remote, bidir, true), id);
    Extend(ids, LongestAt(local, remote, bidir, false), id);
  }

  lemma NoTotals(local: Results, remote: Results, bidir: bool)
    ensures IsTotals(Totals(0, 0, 0, 0), local, remote, bidir, {})
  {
  }

  // print_summary, whatever the order in which the ids come; the totals are only printed when
  // there is more than one stream.
  method PrintSummary(local: Results, remote: Results, bidir: bool) returns (t: Totals, shown: bool)
    ensures IsTotals(t, local, remote, bidir, local.Keys)
    ensures shown <==> |local| > 1
  {
    hide IsTotals, AddLine;
    NoTotals(local, remote, bidir);
    t := Totals(0, 0, 0, 0);
    var left := local.Keys;
    assert local.Keys - left == {};
    while left != {}
      invariant left <= local.Keys
      invariant IsTotals(t, local, remote, bidir, local.Keys - left)
      decreases |left|
    {
      var id :| id in left;
      ghost var before := t;
      t := AddLine(t, local[id]);
      if !bidir && id in remote { t := AddLine(t, remote[id]); }
      TotalsExtend(before, t, local, remote, bidir, local.Keys - left, id);
      assert local.Keys - left + {id} == local.Keys - (left - {id});
      left := left - {id};
    }
    assert local.Keys - left == local.Keys;
    shown := |local| > 1;
  }

  // So the iteration order is invisible.
  lemma TotalsUnique(t: Totals, u: Totals, local: Results, remote: Results, bidir: bool, ids: set<nat>)
    requires IsTotals(t, local, remote, bidir, ids) && IsTotals(u, local, remote, bidir, ids)
    ensures t == u
  {
  }

  // What one more stream adds, read off its results: the bytes of its local line, and of its remote
  // line in a one-way test, to the totals of their own kinds, and their durations to those maxima.
  lemma TotalsGrow(t: Totals, u: Totals, local: Results, remote: Results, bidir: bool, id: nat, line: StreamStats)
    requires id !in local && IsTotals(t, local, remote, bidir, local.Keys)
    requires IsTotals(u, local[id := line], remote, bidir, local.Keys + {id})
    ensures var there := !bidir && id in remote;
            && u.senderBytes == t.senderBytes + (if line.sender then line.bytesTransferred else 0)
                 + (if there && remote[id].sender then remote[id].bytesTransferred else 0)
            && u.receiverBytes == t.receiverBytes + (if line.sender then 0 else line.bytesTransferred)
                 + (if there && !remote[id].sender then remote[id].bytesTransferred else 0)
            && u.senderMillis == Max(Max(t.senderMillis, if line.sender then line.durationMillis else 0),
                                     if there && remote[id].sender then remote[id].durationMillis else 0)
            && u.receiverMillis == Max(Max(t.receiverMillis, if line.sender then 0 else line.durationMillis),
                                       if there && !remote[id].sender then remote[id].durationMillis else 0)
  {
    hide IsTotals, AddLine;
    var more := local[id := line];
    var u' := AddLine(t, line);
    if !bidir && id in remote { u' := AddLine(u', remote[id]); }
    OtherStreamsStay(t, local, remote, bidir, id, line);
    TotalsExtend(t, u', more, remote, bidir, local.Keys, id);
    TotalsUnique(u, u', more, remote, bidir, local.Keys + {id});
    WhatLinesAdd(t, line);
    WhatLinesAdd(AddLine(t, line), if id in remote then remote[id] else line);
  }

  lemma WhatLinesAdd(t: Totals, line: StreamStats)
    ensures var u := AddLine(t, line);
            && u.senderBytes == t.senderBytes + (if line.sender then line.bytesTransferred else 0)
            && u.receiverBytes == t.receiverBytes + (if line.sender then 0 else line.bytesTransferred)
            && u.senderMillis == Max(t.senderMillis, if line.sender then line.durationMillis else 0)
            && u.receiverMillis == Max(t.receiverMillis, if line.sender then 0 else line.durationMillis)
  {
  }

  // The totals over some streams do not look at the others.
  lemma OtherStreamsStay(t: Totals, local: Results, remote: Results, bidir: bool, id: nat, line: StreamStats)
    requires id !in local && IsTotals(t, local, remote, bidir, local.Keys)
    ensures IsTotals(t, local[id := line], remote, bidir, local.Keys)
  {
    hide Sum;
    var more := local[id := line];
    forall i, sender | i in local.Keys
      ensures BytesAt(local, remote, bidir, sender)(i) == BytesAt(more, remote, bidir, sender)(i)
      ensures LongestAt(local, remote, bidir, sender)(i) == LongestAt(more, remote, bidir, sender)(i)
    {
      assert Lines(local, remote, bidir, i) == Lines(more, remote, bidir, i);
    }
    SumAgrees(local.Keys, BytesAt(local, remote, bidir, true), BytesAt(more, remote, bidir, true));
    SumAgrees(local.Keys, BytesAt(local, remote, bidir, false), BytesAt(more, remote, bidir, false));
    MaxAgrees(local.Keys, LongestAt(local, remote, bidir, true), LongestAt(more, remote, bidir, true), t.senderMillis);
    MaxAgrees(local.Keys, LongestAt(local, remote, bidir, false), LongestAt(more, remote, bidir, false),
              t.receiverMillis);
  }

  // In a one-way test whose ends know the same streams it does not matter which end prints.
  lemma SwapChangesNothing(t: Totals, local: Results, remote: Results)
    requires local.Keys == remote.Keys
    ensures IsTotals(t, local, remote, false, local.Keys) ==> IsTotals(t, remote, local, false, remote.Keys)
  {
    hide Lines, Sum;
    forall id, sender | id in local.Keys
      ensures BytesAt(local, remote, false, sender)(id) == BytesAt(remote, local, false, sender)(id)
      ensures LongestAt(local, remote, false, sender)(id) == LongestAt(remote, local, false, sender)(id)
    {
      SwapLines(local, remote, id, sender);
    }
    SumAgrees(local.Keys, BytesAt(local, remote, false, true), BytesAt(remote, local, false, true));
    SumAgrees(local.Keys, BytesAt(local, remote, false, false), BytesAt(remote, local, false, false));
    MaxAgrees(local.Keys, LongestAt(local, remote, false, true), LongestAt(remote, local, false, true), t.senderMillis);
    MaxAgrees(local.Keys, LongestAt(local, remote, false, false), LongestAt(remote, local, false, false),
              t.receiverMillis);
  }

  lemma SwapLines(local: Results, remote: Results, id: nat, sender: bool)
    requires id in local && id in remote
    ensures BytesOf(Lines(local, remote, false, id), sender) == BytesOf(Lines(remote, local, false, id), sender)
    ensures LongestOf(Lines(local, remote, false, id), sender) == LongestOf(Lines(remote, local, false, id), sender)
  {
    hide BytesOf, LongestOf, Lines;
    LinesAre(local, remote, false, id, sender);
    LinesAre(remote, local, false, id, sender);
  }

  lemma MaxAgrees(ids: set<nat>, f: nat -> nat, g: nat -> nat, m: nat)
    requires forall id :: id in ids ==> f(id) == g(id)
    ensures IsMax(ids, f, m) ==> IsMax(ids, g, m)
  {
  }

  // One stream sends one byte, all others are silent.
  function Lone(ids: set<nat>, id: nat): Results {
    map i | i in ids :: Stats.StreamStats(true, 0, if i == id then 1 else 0, 0, None)
  }

  lemma {:induction false} SumZero(ids: set<nat>, f: nat -> nat)
    requires forall id :: id in ids ==> f(id) == 0
    ensures Sum(ids, f) == 0
  {
    if ids != {} {
      var id :| id in ids;
      SumRemove(ids, f, id);
      SumZero(ids - {id}, f);
    }
  }

  // If one end knows a stream that the other does not, the two ends can print different totals.
  lemma UnmatchedStreamMatters(mine: set<nat>, yours: set<nat>, id: nat, t: Totals)
    requires id in mine && id !in yours
    ensures IsTotals(t, Lone(mine, id), Lone(yours, id), false, mine) ==> t.senderBytes >= 1
    ensures IsTotals(t, Lone(yours, id), Lone(mine, id), false, yours) ==> t.senderBytes == 0
  {
    hide BytesOf, Lines, Sum;
    var a, b := Lone(mine, id), Lone(yours, id);
    SumRemove(mine, BytesAt(a, b, false, true), id);
    LinesAre(a, b, false, id, true);
    forall i | i in yours ensures BytesAt(b, a, false, true)(i) == 0 {
      LinesAre(b, a, false, i, true);
    }
    SumZero(yours, BytesAt(b, a, false, true));
  }

  lemma {:induction false} TotalsExist(local: Results, remote: Results, bidir: bool, ids: set<nat>) returns (t: Totals)
    requires ids <= local.Keys
    ensures IsTotals(t, local, remote, bidir, ids)
  {
    hide IsTotals, AddLine;
    if ids == {} {
      NoTotals(local, remote, bidir);
      t := Totals(0, 0, 0, 0);
    } else {
      var id :| id in ids;
      var before := TotalsExist(local, remote, bidir, ids - {id});
      t := AddLine(before, local[id]);
      if !bidir && id in remote { t := AddLine(t, remote[id]); }
      TotalsExtend(before, t, local, remote, bidir, ids - {id}, id);
      assert ids - {id} + {id} == ids;
    }
  }

  // Both ends of a one-way test print the same totals, whatever the results are.
  ghost predicate Symmetric(mine: set<nat>, yours: set<nat>) {
    forall t: Totals, local: Results, remote: Results :: local.Keys == mine && remote.Keys == yours ==>
      (IsTotals(t, local, remote, false, mine) ==> IsTotals(t, remote, local, false, yours))
  }

  // They do exactly when they know the same streams.
  lemma SymmetricExactly(mine: set<nat>, yours: set<nat>)
    ensures Symmetric(mine, yours) && Symmetric(yours, mine) <==> mine == yours
  {
    hide IsTotals, Lone;
    if mine == yours {
      forall t: Totals, local: Results, remote: Results | local.Keys == mine && remote.Keys == yours
        ensures IsTotals(t, local, remote, false, mine) ==> IsTotals(t, remote, local, false, yours)
      {
        SwapChangesNothing(t, local, remote);
      }
    }
    forall id | id in mine && id !in yours ensures !Symmetric(mine, yours) {
      Asymmetric(mine, yours, id);
    }
    forall id | id in yours && id !in mine ensures !Symmetric(yours, mine) {
      Asymmetric(yours, mine, id);
    }
  }

  lemma Asymmetric(mine: set<nat>, yours: set<nat>, id: nat)
    requires id in mine && id !in yours
    ensures !Symmetric(mine, yours)
  {
    hide IsTotals;
    var t := TotalsExist(Lone(mine, id), Lone(yours, id), false, mine);
    UnmatchedStreamMatters(mine, yours, id, t);
    assert Lone(mine, id).Keys == mine && Lone(yours, id).Keys == yours;
  }
}
