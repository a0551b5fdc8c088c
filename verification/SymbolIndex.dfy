/**
  symbolicate_stacks.py: the perfmap table, the two bisection lookups, and the fold of the
  stack capture.
 */
module SymbolIndex {
  import opened Wrappers

  // A parsed perfmap line; the covered addresses are start <= a < start + size.
  datatype Entry = Entry(start: nat, size: nat, name: string)

  datatype Row = Row(start: nat, end: nat, name: string)

  // ------------------------------------------------------------- merging entries

  predicate IsWasmName(name: string) {
    "wasm[" <= name
  }

  function RowOf(e: Entry): Row {
    Row(e.start, e.start + e.size, e.name)
  }

  // The index of the entry that names `start`: the first one with a proper name, or else the
  // first one at all.
  ghost predicate Names(entries: seq<Entry>, start: nat, i: nat) {
    && i < |entries| && entries[i].start == start
    && if !IsWasmName(entries[i].name)
       then forall j :: 0 <= j < i && entries[j].start == start ==> IsWasmName(entries[j].name)
       else forall j :: 0 <= j < |entries| && entries[j].start == start ==>
              IsWasmName(entries[j].name) && i <= j
  }

  lemma NamesUnique(entries: seq<Entry>, start: nat, i: nat, j: nat)
    requires Names(entries, start, i) && Names(entries, start, j)
    ensures i == j
  {
  }

  // `best` holds, for exactly the addresses some entry starts at, the row of the naming entry.
  ghost predicate IsBest(entries: seq<Entry>, best: map<nat, Row>) {
    && (forall start :: start in best <==> exists i :: 0 <= i < |entries| && entries[i].start == start)
    && (forall start :: start in best ==>
          exists i: nat :: Names(entries, start, i) && best[start] == RowOf(entries[i]))
  }

  lemma StartsExtend(entries: seq<Entry>, e: Entry, start: nat)
    ensures (exists i :: 0 <= i < |entries + [e]| && (entries + [e])[i].start == start) <==>
              start == e.start || exists i :: 0 <= i < |entries| && entries[i].start == start
  {
    var all := entries + [e];
    assert all[|entries|] == e;
    if i :| 0 <= i < |entries| && entries[i].start == start { assert all[i].start == start; }
    assert forall i :: 0 <= i < |entries| ==> all[i] == entries[i];
  }

  // A naming entry keeps its name, unless the new entry is for the same start and names it better.
  lemma OldName(entries: seq<Entry>, e: Entry, start: nat, i: nat)
    requires Names(entries, start, i)
    requires e.start != start || !IsWasmName(entries[i].name) || IsWasmName(e.name)
    ensures Names(entries + [e], start, i) && (entries + [e])[i] == entries[i]
  {
    var all := entries + [e];
    assert forall j :: 0 <= j < |entries| ==> all[j] == entries[j];
    assert all[|entries|] == e;
  }

  lemma BestExtends(entries: seq<Entry>, best: map<nat, Row>, e: Entry)
    requires IsBest(entries, best)
    ensures var replace := e.start !in best || (IsWasmName(best[e.start].name) && !IsWasmName(e.name));
            IsBest(entries + [e], if replace then best[e.start := RowOf(e)] else best)
  {
    hide IsWasmName;
    var all := entries + [e];
    var replace := e.start !in best || (IsWasmName(best[e.start].name) && !IsWasmName(e.name));
    var best' := if replace then best[e.start := RowOf(e)] else best;
    forall start ensures start in best' <==> exists i :: 0 <= i < |all| && all[i].start == start {
      StartsExtend(entries, e, start);
    }
    forall start | start in best'
      ensures exists i: nat :: Names(all, start, i) && best'[start] == RowOf(all[i])
    {
      if start == e.start && replace {
        NewName(entries, best, e);
      } else {
        var i: nat :| Names(entries, start, i) && best[start] == RowOf(entries[i]);
        OldName(entries, e, start, i);
      }
    }
  }

  lemma NewName(entries: seq<Entry>, best: map<nat, Row>, e: Entry)
    requires IsBest(entries, best)
    requires e.start !in best || (IsWasmName(best[e.start].name) && !IsWasmName(e.name))
    ensures Names(entries + [e], e.start, |entries|)
  {
    var all := entries + [e];
    if e.start in best {
      var i: nat :| Names(entries, e.start, i) && best[e.start] == RowOf(entries[i]);
      assert forall j :: 0 <= j < |entries| ==> all[j] == entries[j];
    } else {
      forall j | 0 <= j < |entries| ensures all[j].start != e.start {
        assert entries[j].start == e.start ==> e.start in best;
      }
    }
  }

  // ----------------------------------------------------------------- sorted tables

  ghost predicate Ascending(rows: seq<Row>) {
    forall i, j :: 0 <= i < j < |rows| ==> rows[i].start < rows[j].start
  }

  function Starts(rows: seq<Row>): (starts: seq<nat>)
    ensures |starts| == |rows| && forall i :: 0 <= i < |rows| ==> starts[i] == rows[i].start
  {
    seq(|rows|, i requires 0 <= i < |rows| => rows[i].start)
  }

  function InsertRow(rows: seq<Row>, row: Row): (r: seq<Row>)
    requires Ascending(rows) && forall i :: 0 <= i < |rows| ==> rows[i].start != row.start
    ensures Ascending(r) && |r| == |rows| + 1
    ensures forall x :: x in r <==> x in rows || x == row
  {
    if rows == [] then [row]
    else if rows[|rows| - 1].start < row.start then rows + [row]
    else
      var last := |rows| - 1;
      var r := InsertRow(rows[..last], row);
      assert rows == rows[..last] + [rows[last]];
      assert forall x :: x in r ==> x.start < rows[last].start by {
        forall x | x in r ensures x.start < rows[last].start {
          if x in rows[..last] { var i :| 0 <= i < last && rows[i] == x; }
        }
      }
      r + [rows[last]]
  }

  // The table is the merged map in address order: one row per start, rising.
  ghost predicate IsTable(best: map<nat, Row>, rows: seq<Row>) {
    && Ascending(rows)
    && (forall row :: row in rows <==> row.start in best && best[row.start] == row)
  }

  method MergeEntries(entries: seq<Entry>) returns (best: map<nat, Row>)
    ensures IsBest(entries, best)
    ensures forall start :: start in best ==> best[start].start == start
  {
    hide IsBest;
    best := map[];
    NothingMerged();
    for i := 0 to |entries|
      invariant IsBest(entries[..i], best)
      invariant forall start :: start in best ==> best[start].start == start
    {
      var e := entries[i];
      BestExtends(entries[..i], best, e);
      assert entries[..i + 1] == entries[..i] + [e];
      if e.start !in best || (IsWasmName(best[e.start].name) && !IsWasmName(e.name)) {
        best := best[e.start := RowOf(e)];
      }
    }
    assert entries[..|entries|] == entries;
  }

  method SortRows(best: map<nat, Row>) returns (rows: seq<Row>)
    requires forall start :: start in best ==> best[start].start == start
    ensures IsTable(best, rows) && |rows| == |best|
  {
    rows := [];
    var rest := best.Keys;
    while rest != {}
      invariant rest <= best.Keys && Ascending(rows)
      invariant forall row :: row in rows <==> row.start in best && row.start !in rest && best[row.start] == row
      invariant |rows| + |rest| == |best.Keys|
      decreases rest
    {
      var start :| start in rest;
      rows := InsertRow(rows, best[start]);
      rest := rest - {start};
    }
  }

  method LoadPerfmap(entries: seq<Entry>) returns (starts: seq<nat>, rows: seq<Row>)
    ensures starts == Starts(rows)
    ensures exists best :: IsBest(entries, best) && IsTable(best, rows)
  {
    hide IsBest, IsTable;
    var best := MergeEntries(entries);
    rows := SortRows(best);
    starts := Starts(rows);
  }

  lemma NothingMerged()
    ensures IsBest([], map[])
  {
  }

  // ------------------------------------------------------------------- bisection

  ghost predicate NonDecreasing(starts: seq<nat>) {
    forall i, j :: 0 <= i < j < |starts| ==> starts[i] <= starts[j]
  }

  // bisect_right: the first index past every start at or below the address.
  method BisectRight(starts: seq<nat>, addr: int) returns (lo: nat)
    requires NonDecreasing(starts)
    ensures lo <= |starts|
    ensures forall k :: 0 <= k < lo ==> starts[k] <= addr
    ensures forall k :: lo <= k < |starts| ==> starts[k] > addr
  {
    lo := 0;
    var hi := |starts|;
    while lo < hi
      invariant lo <= hi <= |starts|
      invariant forall k :: 0 <= k < lo ==> starts[k] <= addr
      invariant forall k :: hi <= k < |starts| ==> starts[k] > addr
    {
      var mid := (lo + hi) / 2;
      if addr < starts[mid] { hi := mid; } else { lo := mid + 1; }
    }
  }

  // A linear scan for the last row at or below the address.
  function LastAtOrBelow(starts: seq<nat>, addr: int): (i: int)
    ensures -1 <= i < |starts|
    ensures i >= 0 ==> starts[i] <= addr
    ensures forall k :: i < k < |starts| ==> starts[k] > addr
  {
    if starts == [] then -1
    else if starts[|starts| - 1] <= addr then |starts| - 1
    else LastAtOrBelow(starts[..|starts| - 1], addr)
  }

  function RangeAt(rows: seq<Row>, addr: nat): Option<string> {
    var i := LastAtOrBelow(Starts(rows), addr);
    if i >= 0 && rows[i].start <= addr < rows[i].end then Some(rows[i].name) else None
  }

  method LookupRange(starts: seq<nat>, rows: seq<Row>, addr: nat) returns (name: Option<string>)
    requires Ascending(rows) && starts == Starts(rows)
    ensures name == RangeAt(rows, addr)
  {
    var i := BisectRight(starts, addr);
    if i >= 1 {
      var row := rows[i - 1];
      assert LastAtOrBelow(starts, addr) == i - 1;
      if row.start <= addr < row.end { return Some(row.name); }
    }
    return None;
  }

  predicate Contains(row: Row, addr: nat) {
    row.start <= addr < row.end
  }

  // Where the next row begins, or no bound for the last one.
  function NextStart(rows: seq<Row>, j: nat): Option<nat> {
    if j + 1 < |rows| then Some(rows[j + 1].start) else None
  }

  // A hit is always a row that contains the address, the one with the greatest start.
  lemma RangeAtIsSound(rows: seq<Row>, addr: nat)
    requires Ascending(rows) && RangeAt(rows, addr).Some?
    ensures exists i: nat :: i < |rows| && Contains(rows[i], addr) && RangeAt(rows, addr) == Some(rows[i].name) &&
                             forall k: nat :: k < |rows| && Contains(rows[k], addr) ==> k <= i
  {
    var i := LastAtOrBelow(Starts(rows), addr);
    assert Contains(rows[i], addr);
  }

  function Reach(rows: seq<Row>, i: nat, j: nat): nat
    requires i < j < |rows|
  {
    match NextStart(rows, j)
    case None => rows[i].end
    case Some(next) => if rows[i].end < next then rows[i].end else next
  }

  // An earlier row does not reach, before the next row begins, beyond the end of row j.
  ghost predicate Shadowless(rows: seq<Row>) {
    forall i: nat, j: nat :: i < j < |rows| ==>
      Reach(rows, i, j) <= rows[j].start || Reach(rows, i, j) <= rows[j].end
  }

  lemma HiddenRow(rows: seq<Row>, i: nat, j: nat)
    requires Ascending(rows) && i < j < |rows|
    requires Reach(rows, i, j) > rows[j].start && Reach(rows, i, j) > rows[j].end
    ensures exists addr: nat :: Contains(rows[i], addr) && RangeAt(rows, addr).None?
  {
    var addr := if rows[j].end < rows[j].start then rows[j].start else rows[j].end;
    assert Contains(rows[i], addr);
    LastIs(rows, j, addr);
    assert RangeAt(rows, addr).None?;
  }

  // The bisection finds a containing row whenever there is one exactly when no row hides behind
  // a later, shorter one.
  lemma RangeAtIsComplete(rows: seq<Row>)
    requires Ascending(rows)
    ensures (forall addr: nat, i: nat :: i < |rows| && Contains(rows[i], addr) ==> RangeAt(rows, addr).Some?)
            <==> Shadowless(rows)
  {
    if Shadowless(rows) {
      forall addr: nat, i: nat | i < |rows| && Contains(rows[i], addr) ensures RangeAt(rows, addr).Some? {
        var j := LastAtOrBelow(Starts(rows), addr);
        assert Starts(rows)[i] <= addr;
        if i < j { Reaches(rows, i, j, addr); }
      }
    } else {
      var i: nat, j: nat :| i < j < |rows| && Reach(rows, i, j) > rows[j].start && Reach(rows, i, j) > rows[j].end;
      HiddenRow(rows, i, j);
    }
  }

  lemma Reaches(rows: seq<Row>, i: nat, j: nat, addr: nat)
    requires Ascending(rows) && Shadowless(rows) && i < j < |rows| && Contains(rows[i], addr)
    requires rows[j].start <= addr && (j + 1 < |rows| ==> addr < rows[j + 1].start)
    ensures addr < rows[j].end
  {
    assert addr < Reach(rows, i, j);
  }

  lemma LastIs(rows: seq<Row>, j: nat, addr: nat)
    requires Ascending(rows) && j < |rows|
    requires rows[j].start <= addr && (j + 1 < |rows| ==> addr < rows[j + 1].start)
    ensures LastAtOrBelow(Starts(rows), addr) == j
  {
    assert Starts(rows)[j] == rows[j].start;
    assert j + 1 < |rows| ==> forall k :: j + 1 <= k < |rows| ==> rows[j + 1].start <= rows[k].start;
  }

  // Rows that do not overlap hide nothing.
  lemma DisjointIsShadowless(rows: seq<Row>)
    requires Ascending(rows)
    requires forall i: nat, j: nat :: i < j < |rows| ==> rows[i].end <= rows[j].start
    ensures Shadowless(rows)
  {
  }

  // What the table answers, in terms of the lines it was read from: entry i has the greatest start
  // at or below the address, covers the address, and names its start: it is the first entry there
  // without the prefix "wasm[", or the first one at all.
  ghost predicate Answers(entries: seq<Entry>, addr: nat, i: nat) {
    && i < |entries|
    && entries[i].start <= addr < entries[i].start + entries[i].size
    && (forall j :: 0 <= j < |entries| && entries[j].start <= addr ==> entries[j].start <= entries[i].start)
    && if !("wasm[" <= entries[i].name)
       then forall j :: 0 <= j < i && entries[j].start == entries[i].start ==> "wasm[" <= entries[j].name
       else forall j :: 0 <= j < |entries| && entries[j].start == entries[i].start ==>
              "wasm[" <= entries[j].name && i <= j
  }

  // Every start has its row, and every row is that of a naming entry.
  lemma RowOfStart(entries: seq<Entry>, best: map<nat, Row>, rows: seq<Row>, j: nat) returns (k: nat)
    requires IsBest(entries, best) && IsTable(best, rows) && j < |entries|
    ensures k < |rows| && rows[k].start == entries[j].start && best[entries[j].start] == rows[k]
  {
    var start := entries[j].start;
    assert start in best;
    var i: nat :| Names(entries, start, i) && best[start] == RowOf(entries[i]);
    NamesStart(entries, start, i);
    assert best[start] in rows;
    k :| k < |rows| && rows[k] == best[start];
  }

  lemma NamesStart(entries: seq<Entry>, start: nat, i: nat)
    requires Names(entries, start, i)
    ensures i < |entries| && entries[i].start == start
  {
  }

  lemma EntryOfRow(entries: seq<Entry>, best: map<nat, Row>, rows: seq<Row>, k: nat) returns (i: nat)
    requires IsBest(entries, best) && IsTable(best, rows) && k < |rows|
    ensures i < |entries| && Names(entries, entries[i].start, i) && rows[k] == RowOf(entries[i])
  {
    assert rows[k] in rows;
    i :| Names(entries, rows[k].start, i) && best[rows[k].start] == RowOf(entries[i]);
  }

  // A lookup in the loaded table gives the name of exactly that entry.
  lemma LookupAnswers(entries: seq<Entry>, best: map<nat, Row>, rows: seq<Row>, addr: nat, name: string)
    requires IsBest(entries, best) && IsTable(best, rows)
    ensures RangeAt(rows, addr) == Some(name) <==> exists i: nat :: Answers(entries, addr, i) && entries[i].name == name
  {
    hide IsBest, IsTable, Names;
    TableAscends(best, rows);
    var last := LastAtOrBelow(Starts(rows), addr);
    if RangeAt(rows, addr) == Some(name) {
      var i := EntryOfRow(entries, best, rows, last);
      forall j | 0 <= j < |entries| && entries[j].start <= addr ensures entries[j].start <= entries[i].start {
        var k := RowOfStart(entries, best, rows, j);
        assert Starts(rows)[k] <= addr;
      }
      NamesAnswers(entries, addr, i);
    }
    forall i: nat | Answers(entries, addr, i) && entries[i].name == name ensures RangeAt(rows, addr) == Some(name) {
      var k := RowOfStart(entries, best, rows, i);
      var e := EntryOfRow(entries, best, rows, k);
      AnswersNames(entries, addr, i);
      NamesUnique(entries, entries[i].start, i, e);
      assert Starts(rows)[k] <= addr;
      var n := EntryOfRow(entries, best, rows, last);
      assert entries[n].start <= entries[i].start;
    }
  }

  lemma TableAscends(best: map<nat, Row>, rows: seq<Row>)
    requires IsTable(best, rows)
    ensures Ascending(rows)
  {
  }

  lemma NamesAnswers(entries: seq<Entry>, addr: nat, i: nat)
    requires i < |entries| && Names(entries, entries[i].start, i)
    requires entries[i].start <= addr < entries[i].start + entries[i].size
    requires forall j :: 0 <= j < |entries| && entries[j].start <= addr ==> entries[j].start <= entries[i].start
    ensures Answers(entries, addr, i)
  {
  }

  lemma AnswersNames(entries: seq<Entry>, addr: nat, i: nat)
    requires Answers(entries, addr, i)
    ensures Names(entries, entries[i].start, i)
  {
  }

  // ----------------------------------------------------------------- kernel symbols

  datatype Symbol = Symbol(addr: nat, name: string)

  // Python's order on strings.
  predicate StringAtMost(a: string, b: string) {
    a == [] || (b != [] && (a[0] < b[0] || (a[0] == b[0] && StringAtMost(a[1..], b[1..]))))
  }

  lemma {:induction false} StringTotal(a: string, b: string)
    ensures StringAtMost(a, b) || StringAtMost(b, a)
    ensures StringAtMost(a, b) && StringAtMost(b, a) ==> a == b
  {
    if a != [] && b != [] && a[0] == b[0] {
      StringTotal(a[1..], b[1..]);
      assert a == [a[0]] + a[1..] && b == [b[0]] + b[1..];
    }
  }

  lemma {:induction false} StringTransitive(a: string, b: string, c: string)
    requires StringAtMost(a, b) && StringAtMost(b, c)
    ensures StringAtMost(a, c)
  {
    if a != [] && a[0] == b[0] == c[0] { StringTransitive(a[1..], b[1..], c[1..]); }
  }

  // It is the lexicographic one: a prefix, or the smaller character at the first difference.
  lemma {:induction false} StringOrder(a: string, b: string)
    ensures StringAtMost(a, b) <==>
              a <= b || exists k :: 0 <= k < |a| && k < |b| && a[..k] == b[..k] && a[k] < b[k]
  {
    if a != [] && b != [] {
      var s, t := a[1..], b[1..];
      assert a == [a[0]] + s && b == [b[0]] + t;
      StringOrder(s, t);
      if a[0] == b[0] {
        if k :| 0 <= k < |s| && k < |t| && s[..k] == t[..k] && s[k] < t[k] {
          assert a[..k + 1] == [a[0]] + s[..k] && b[..k + 1] == [b[0]] + t[..k];
          assert a[k + 1] < b[k + 1];
        }
        if k :| 0 <= k < |a| && k < |b| && a[..k] == b[..k] && a[k] < b[k] {
          assert k > 0 && s[..k - 1] == a[..k][1..] && t[..k - 1] == b[..k][1..];
          assert s[k - 1] < t[k - 1];
        }
        assert s <= t <==> a <= b;
      } else {
        if a[0] < b[0] { assert a[..0] == b[..0]; }
        forall k | 0 < k < |a| && k < |b| ensures a[..k] != b[..k] {
          assert a[..k][0] == a[0] && b[..k][0] == b[0];
        }
      }
    }
  }

  // The order on (addr, name) pairs.
  predicate AtMost(x: Symbol, y: Symbol) {
    x.addr < y.addr || (x.addr == y.addr && StringAtMost(x.name, y.name))
  }

  lemma AtMostTotal(x: Symbol, y: Symbol)
    ensures AtMost(x, y) || AtMost(y, x)
    ensures AtMost(x, y) && AtMost(y, x) ==> x == y
  {
    StringTotal(x.name, y.name);
  }

  lemma AtMostTransitive(x: Symbol, y: Symbol, z: Symbol)
    requires AtMost(x, y) && AtMost(y, z)
    ensures AtMost(x, z)
  {
    if x.addr == y.addr == z.addr { StringTransitive(x.name, y.name, z.name); }
  }

  ghost predicate InOrder(symbols: seq<Symbol>) {
    forall i, j :: 0 <= i < j < |symbols| ==> AtMost(symbols[i], symbols[j])
  }

  function InsertSymbol(symbols: seq<Symbol>, x: Symbol): (r: seq<Symbol>)
    ensures multiset(r) == multiset(symbols) + multiset{x}
  {
    if symbols == [] then [x]
    else
      var last := |symbols| - 1;
      assert symbols == symbols[..last] + [symbols[last]];
      if AtMost(symbols[last], x) then symbols + [x]
      else InsertSymbol(symbols[..last], x) + [symbols[last]]
  }

  lemma {:induction false} InsertInOrder(symbols: seq<Symbol>, x: Symbol)
    requires InOrder(symbols)
    ensures InOrder(InsertSymbol(symbols, x))
  {
    if symbols != [] {
      var last := |symbols| - 1;
      if AtMost(symbols[last], x) {
        forall i | 0 <= i < last ensures AtMost(symbols[i], x) {
          AtMostTransitive(symbols[i], symbols[last], x);
        }
      } else {
        InsertInOrder(symbols[..last], x);
        AtMostTotal(symbols[last], x);
        var r := InsertSymbol(symbols[..last], x);
        forall i | 0 <= i < |r| ensures AtMost(r[i], symbols[last]) {
          assert r[i] in multiset(symbols[..last]) + multiset{x};
        }
      }
    }
  }

  method LoadKsyms(entries: seq<Symbol>) returns (addrs: seq<nat>, symbols: seq<Symbol>)
    ensures InOrder(symbols) && multiset(symbols) == multiset(entries)
    ensures addrs == Addrs(symbols)
  {
    symbols := [];
    for i := 0 to |entries|
      invariant InOrder(symbols) && multiset(symbols) == multiset(entries[..i])
    {
      assert entries[..i + 1] == entries[..i] + [entries[i]];
      InsertInOrder(symbols, entries[i]);
      symbols := InsertSymbol(symbols, entries[i]);
    }
    assert entries[..|entries|] == entries;
    addrs := Addrs(symbols);
  }

  function Addrs(symbols: seq<Symbol>): (addrs: seq<nat>)
    ensures |addrs| == |symbols| && forall i :: 0 <= i < |symbols| ==> addrs[i] == symbols[i].addr
  {
    seq(|symbols|, i requires 0 <= i < |symbols| => symbols[i].addr)
  }

  ghost predicate IsNearest(symbols: seq<Symbol>, addr: int, hit: Symbol) {
    && hit in symbols && hit.addr <= addr
    && forall x :: x in symbols && x.addr <= addr ==> AtMost(x, hit)
  }

  // The greatest symbol at or below the address, and how far past it the address is; nothing
  // exactly when every symbol is above it.
  method LookupNearest(addrs: seq<nat>, symbols: seq<Symbol>, addr: int) returns (name: Option<string>, off: int)
    requires InOrder(symbols) && addrs == Addrs(symbols)
    ensures name.None? <==> forall x :: x in symbols ==> x.addr > addr
    ensures name.None? ==> off == 0
    ensures name.Some? ==> off >= 0 && addr - off >= 0 && IsNearest(symbols, addr, Symbol(addr - off, name.value))
  {
    var i := BisectRight(addrs, addr);
    if i >= 1 {
      var hit := symbols[i - 1];
      assert addrs[i - 1] == hit.addr <= addr;
      forall x | x in symbols && x.addr <= addr ensures AtMost(x, hit) {
        var k :| 0 <= k < |symbols| && symbols[k] == x;
        assert addrs[k] <= addr;
        AtMostTotal(hit, hit);
      }
      return Some(hit.name), addr - hit.addr;
    }
    assert forall k :: 0 <= k < |symbols| ==> addrs[k] == symbols[k].addr;
    return None, 0;
  }

  // The nearest symbol has the greatest address at or below, and among those the last name.
  lemma NearestIsGreatest(symbols: seq<Symbol>, addr: int, hit: Symbol, x: Symbol)
    requires IsNearest(symbols, addr, hit) && x in symbols && x.addr <= addr
    ensures x.addr < hit.addr || (x.addr == hit.addr && StringAtMost(x.name, hit.name))
  {
  }

  // ------------------------------------------------------------------------ folding

  // A line of the capture: a frame, or the count that ends a record; blank lines are dropped.
  datatype Line = Frame(text: string) | Count(n: nat)

  datatype Record = Record(frames: seq<string>, count: nat)

  // The frames collected since the last count.
  function OpenFrames(lines: seq<Line>): seq<string> {
    if lines == [] || lines[|lines| - 1].Count? then []
    else OpenFrames(lines[..|lines| - 1]) + [lines[|lines| - 1].text]
  }

  // The records that have frames, in order.
  function Records(lines: seq<Line>): seq<Record> {
    if lines == [] then []
    else
      var before := lines[..|lines| - 1];
      match lines[|lines| - 1]
      case Frame(_) => Records(before)
      case Count(n) => if OpenFrames(before) == [] then Records(before)
                       else Records(before) + [Record(OpenFrames(before), n)]
  }

  // The cleaned frames, root first, joined with semicolons.
  function Key(clean: string -> string, frames: seq<string>): string {
    if frames == [] then ""
    else if |frames| == 1 then clean(frames[0])
    else Key(clean, frames[1..]) + ";" + clean(frames[0])
  }

  function CountOf(clean: string -> string, records: seq<Record>, key: string): nat {
    if records == [] then 0
    else
      var last := records[|records| - 1];
      CountOf(clean, records[..|records| - 1], key) + if Key(clean, last.frames) == key then last.count else 0
  }

  function TotalCount(records: seq<Record>): nat {
    if records == [] then 0 else TotalCount(records[..|records| - 1]) + records[|records| - 1].count
  }

  ghost function ValueSum(m: map<string, nat>): nat {
    if m == map[] then 0
    else
      var k :| k in m;
      m[k] + ValueSum(m - {k})
  }

  // The sum does not depend on the order the map is walked in.
  lemma {:induction false} ValueSumWithout(m: map<string, nat>, k: string)
    requires k in m
    ensures ValueSum(m) == m[k] + ValueSum(m - {k})
    decreases |m|
  {
    var j :| j in m && ValueSum(m) == m[j] + ValueSum(m - {j});
    if j != k {
      assert m - {j} - {k} == m - {k} - {j};
      ValueSumWithout(m - {j}, k);
      ValueSumWithout(m - {k}, j);
    }
  }

  lemma ValueSumUpdate(m: map<string, nat>, k: string, v: nat)
    ensures ValueSum(m[k := v]) == ValueSum(m) - (if k in m then m[k] else 0) + v
  {
    var m' := m[k := v];
    ValueSumWithout(m', k);
    if k in m {
      ValueSumWithout(m, k);
      assert m' - {k} == m - {k};
    } else {
      assert m' - {k} == m;
    }
  }

  function KeysOf(clean: string -> string, records: seq<Record>): set<string> {
    if records == [] then {}
    else KeysOf(clean, records[..|records| - 1]) + {Key(clean, records[|records| - 1].frames)}
  }

  ghost predicate IsFold(clean: string -> string, records: seq<Record>, folded: map<string, nat>) {
    && folded.Keys == KeysOf(clean, records)
    && (forall key :: key in folded ==> folded[key] == CountOf(clean, records, key))
    && (forall key :: key !in folded ==> CountOf(clean, records, key) == 0)
    && ValueSum(folded) == TotalCount(records)
  }

  lemma FoldNothing(clean: string -> string)
    ensures IsFold(clean, [], map[])
  {
  }

  lemma FoldExtends(clean: string -> string, records: seq<Record>, folded: map<string, nat>, r: Record)
    requires IsFold(clean, records, folded)
    ensures var key := Key(clean, r.frames);
            IsFold(clean, records + [r], folded[key := (if key in folded then folded[key] else 0) + r.count])
  {
    hide Key, ValueSum;
    var key := Key(clean, r.frames);
    var all := records + [r];
    assert all[..|records|] == records && all[|records|] == r;
    ValueSumUpdate(folded, key, (if key in folded then folded[key] else 0) + r.count);
  }

  // Every count of a non-empty record goes to its record's key, and none is lost.
  method Fold(lines: seq<Line>, clean: string -> string) returns (folded: map<string, nat>)
    ensures IsFold(clean, Records(lines), folded)
  {
    hide IsFold, Key;
    folded := map[];
    FoldNothing(clean);
    var frames: seq<string> := [];
    for i := 0 to |lines|
      invariant frames == OpenFrames(lines[..i])
      invariant IsFold(clean, Records(lines[..i]), folded)
    {
      assert lines[..i + 1][..i] == lines[..i];
      match lines[i] {
        case Count(n) =>
          if frames != [] {
            FoldExtends(clean, Records(lines[..i]), folded, Record(frames, n));
            var key := Key(clean, frames);
            folded := folded[key := (if key in folded then folded[key] else 0) + n];
          }
          frames := [];
        case Frame(text) =>
          frames := frames + [text];
      }
    }
    assert lines[..|lines|] == lines;
  }

  // ------------------------------------------------------------- what a capture folds to

  // The root comes first: frames closer to the leaf stand to the right, after a semicolon.
  lemma {:induction false} KeyIsRootFirst(clean: string -> string, leaf: seq<string>, root: seq<string>)
    requires leaf != [] && root != []
    ensures Key(clean, leaf + root) == Key(clean, root) + ";" + Key(clean, leaf)
    ensures |leaf| == 1 ==> Key(clean, leaf) == clean(leaf[0])
  {
    assert (leaf + root)[0] == leaf[0];
    if |leaf| == 1 {
      assert (leaf + root)[1..] == root;
    } else {
      assert (leaf + root)[1..] == leaf[1..] + root;
      KeyIsRootFirst(clean, leaf[1..], root);
      assert Key(clean, root) + ";" + Key(clean, leaf[1..]) + ";" + clean(leaf[0]) ==
             Key(clean, root) + ";" + (Key(clean, leaf[1..]) + ";" + clean(leaf[0]));
    }
  }

  function FrameLines(texts: seq<string>): seq<Line> {
    seq(|texts|, i requires 0 <= i < |texts| => Frame(texts[i]))
  }

  lemma {:induction false} FramesStayOpen(lines: seq<Line>, texts: seq<string>)
    requires lines == [] || lines[|lines| - 1].Count?
    ensures OpenFrames(lines + FrameLines(texts)) == texts
    ensures Records(lines + FrameLines(texts)) == Records(lines)
  {
    var all := lines + FrameLines(texts);
    if texts == [] {
      assert all == lines;
    } else {
      var last := |texts| - 1;
      FramesStayOpen(lines, texts[..last]);
      assert all[..|all| - 1] == lines + FrameLines(texts[..last]);
    }
  }

  // A count closes the frames before it into a record; a count without frames is ignored, and so
  // are frames without a count.
  lemma RecordsGrow(lines: seq<Line>, texts: seq<string>, n: nat)
    requires lines == [] || lines[|lines| - 1].Count?
    ensures Records(lines + FrameLines(texts)) == Records(lines)
    ensures Records(lines + FrameLines(texts) + [Count(n)]) ==
            Records(lines) + if texts == [] then [] else [Record(texts, n)]
  {
    FramesStayOpen(lines, texts);
    var all := lines + FrameLines(texts) + [Count(n)];
    assert all[..|all| - 1] == lines + FrameLines(texts);
  }

  // One more record adds its count under its own key and changes nothing else.
  lemma FoldGrows(clean: string -> string, records: seq<Record>, r: Record, before: map<string, nat>,
                  after: map<string, nat>)
    requires IsFold(clean, records, before) && IsFold(clean, records + [r], after)
    ensures var key := Key(clean, r.frames);
            after == before[key := (if key in before then before[key] else 0) + r.count]
  {
    hide Key, ValueSum;
    var all := records + [r];
    assert all[..|records|] == records && all[|records|] == r;
    var key := Key(clean, r.frames);
    var expected := before[key := (if key in before then before[key] else 0) + r.count];
    assert after.Keys == expected.Keys;
    forall k | k in after ensures after[k] == expected[k] {
    }
  }
}
