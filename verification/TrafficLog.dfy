/**
 Paging over two tables at once: following the cursor from the newest page shows the sorted union
 of both tables, every row exactly once.
 */
module TrafficLog {
  import opened Options
  import opened Times
  import opened FiniteSets

  datatype Direction = Outbound | Inbound

  /** A row by its place in the log; ids are unique within a direction. */
  datatype Row = Row(at: Time, direction: Direction, id: nat)

  const PAGE_SIZE: nat := 50

  function Rank(d: Direction): nat {
    if d.Inbound? then 1 else 0
  }

  /** (time, direction, id) of a sorts below that of b. */
  predicate Below(a: Row, b: Row) {
    || a.at < b.at
    || (a.at == b.at && Rank(a.direction) < Rank(b.direction))
    || (a.at == b.at && a.direction == b.direction && a.id < b.id)
  }

  /** The query's condition for rows of one direction before a cursor, case by case. */
  predicate BeforeCursor(row: Row, cursor: Row) {
    if Rank(row.direction) < Rank(cursor.direction) then row.at < cursor.at || row.at == cursor.at
    else if row.direction == cursor.direction then row.at < cursor.at || (row.at == cursor.at && row.id < cursor.id)
    else row.at < cursor.at
  }

  /** The three cases of the condition are the one order. */
  lemma BeforeCursorIsBelow(row: Row, cursor: Row)
    ensures BeforeCursor(row, cursor) <==> Below(row, cursor)
  {
  }

  // ----- sorted lists ---------------------------------------------------------------------------------------

  predicate IsDescending(s: seq<Row>) {
    forall i, j | 0 <= i < j < |s| :: Below(s[j], s[i])
  }

  function Elements(s: seq<Row>): set<Row> {
    set r | r in s
  }

  predicate IsGreatest(rows: set<Row>, g: Row) {
    g in rows && forall r | r in rows :: r == g || Below(r, g)
  }

  lemma {:induction false} GreatestExists(rows: set<Row>)
    requires rows != {}
    ensures exists g :: IsGreatest(rows, g)
    decreases |rows|
  {
    var one :| one in rows;
    var rest := rows - {one};
    if rest == {} {
      assert rows == {one};
      assert IsGreatest(rows, one);
    } else {
      GreatestExists(rest);
      var g :| IsGreatest(rest, g);
      var greatest := if Below(g, one) then one else g;
      forall r | r in rows ensures r == greatest || Below(r, greatest) {
        assert r == one || r in rest;
      }
      assert IsGreatest(rows, greatest);
    }
  }

  ghost function Greatest(rows: set<Row>): (g: Row)
    requires rows != {}
    ensures IsGreatest(rows, g)
  {
    GreatestExists(rows);
    var g :| IsGreatest(rows, g);
    g
  }

  /** The rows newest first. */
  ghost function Sorted(rows: set<Row>): (s: seq<Row>)
    ensures |s| == |rows|
    decreases |rows|
  {
    if rows == {} then [] else [Greatest(rows)] + Sorted(rows - {Greatest(rows)})
  }

  lemma {:induction false} SortedOk(rows: set<Row>)
    ensures IsDescending(Sorted(rows)) && Elements(Sorted(rows)) == rows
    decreases |rows|
  {
    if rows != {} {
      var g := Greatest(rows);
      SortedOk(rows - {g});
      var rest := Sorted(rows - {g});
      assert forall r | r in rest :: r in Elements(rest);
      ConcatDescending([g], rest);
      assert Elements([g]) == {g};
    }
  }

  lemma NoElements(t: seq<Row>)
    ensures Elements(t) == {} ==> t == []
  {
    if t != [] {
      assert t[0] in Elements(t);
    }
  }

  /** There is only one way to sort. */
  lemma {:induction false} SortedIsUnique(s: seq<Row>, t: seq<Row>)
    requires IsDescending(s) && IsDescending(t) && Elements(s) == Elements(t)
    ensures s == t
    decreases |s|
  {
    if s == [] {
      NoElements(t);
    } else {
      assert s[0] in Elements(s);
      assert t != [];
      assert t[0] in Elements(t) && t[0] in s && s[0] in t;
      assert s[0] == t[0];
      forall r ensures r in Elements(s[1..]) <==> r in Elements(t[1..]) {
        TailElements(s, r);
        TailElements(t, r);
      }
      SortedIsUnique(s[1..], t[1..]);
    }
  }

  lemma TailElements(s: seq<Row>, r: Row)
    requires s != [] && IsDescending(s)
    ensures r in Elements(s[1..]) <==> r in Elements(s) && r != s[0]
  {
    if r in s[1..] {
      var i :| 0 <= i < |s[1..]| && s[1..][i] == r;
      assert s[i + 1] == r;
    }
    if r in s && r != s[0] {
      var i :| 0 <= i < |s| && s[i] == r;
      assert s[1..][i - 1] == r;
    }
  }

  function Take(s: seq<Row>, n: nat): seq<Row> {
    if |s| <= n then s else s[..n]
  }

  /** The newest n rows, as the query returns them. */
  ghost function Newest(rows: set<Row>, n: nat): seq<Row> {
    Take(Sorted(rows), n)
  }

  /** Two descending lists, all of the second below all of the first. */
  lemma ConcatDescending(s: seq<Row>, t: seq<Row>)
    requires IsDescending(s) && IsDescending(t) && forall a, b | a in s && b in t :: Below(b, a)
    ensures IsDescending(s + t) && Elements(s + t) == Elements(s) + Elements(t)
  {
    var u := s + t;
    forall i, j | 0 <= i < j < |u| ensures Below(u[j], u[i]) {
      if j < |s| {
      } else if i < |s| {
        assert u[i] in s && u[j] in t;
      } else {
        assert u[i] == t[i - |s|] && u[j] == t[j - |s|];
      }
    }
    forall r ensures r in Elements(u) <==> r in Elements(s) + Elements(t) {
    }
  }

  lemma InFirstPart(s: seq<Row>, n: nat, j: nat)
    requires n <= |s| && j < |s|
    ensures j < n ==> s[j] in s[..n]
  {
    if j < n {
      assert s[..n][j] == s[j];
    }
  }

  /** Everything in the first part of a descending list is above everything after it. */
  lemma HalvesOrdered(s: seq<Row>, n: nat, a: Row, b: Row)
    requires IsDescending(s) && n <= |s| && a in s[..n] && b in s && b !in s[..n]
    ensures Below(b, a)
  {
    var i :| 0 <= i < n && s[i] == a;
    var j :| 0 <= j < |s| && s[j] == b;
    InFirstPart(s, n, j);
  }

  /** The newest n rows stay the newest n when only rows below them are left out. */
  lemma NewestOfSmaller(all: set<Row>, some: set<Row>, n: nat)
    requires some <= all && Elements(Newest(all, n)) <= some
    ensures Newest(some, n) == Newest(all, n)
  {
    var sorted := Sorted(all);
    SortedOk(all);
    if |sorted| <= n {
      assert some == all;
    } else {
      TopOfSmaller(all, some, n, sorted[..n]);
    }
  }

  lemma FirstPartDescends(s: seq<Row>, n: nat)
    requires IsDescending(s) && n <= |s|
    ensures IsDescending(s[..n])
  {
  }

  /** A sorted set whose first part is known. */
  lemma SortedByParts(top: seq<Row>, below: set<Row>)
    requires IsDescending(top) && forall a, b | a in top && b in below :: Below(b, a)
    ensures Sorted(Elements(top) + below) == top + Sorted(below)
  {
    SortedOk(below);
    var others := Sorted(below);
    forall a, b | a in top && b in others ensures Below(b, a) {
      assert b in Elements(others);
    }
    ConcatDescending(top, others);
    SortedOk(Elements(top) + below);
    SortedIsUnique(Sorted(Elements(top) + below), top + others);
  }

  lemma TopOfSmaller(all: set<Row>, some: set<Row>, n: nat, top: seq<Row>)
    requires n < |Sorted(all)| && top == Sorted(all)[..n] && some <= all && Elements(top) <= some
    ensures Newest(some, n) == top
  {
    var sorted := Sorted(all);
    SortedOk(all);
    FirstPartDescends(sorted, n);
    var below := some - Elements(top);
    forall a, b | a in top && b in below ensures Below(b, a) {
      assert b in Elements(sorted) && b !in Elements(top);
      HalvesOrdered(sorted, n, a, b);
    }
    SortedByParts(top, below);
    assert Elements(top) + below == some;
    assert (top + Sorted(below))[..n] == top;
  }

  // ----- one page -------------------------------------------------------------------------------------------

  /** Both tables, as the filter leaves them. */
  datatype Log = Log(inbound: set<Row>, outbound: set<Row>)
  {
    predicate Valid() {
      (forall r | r in inbound :: r.direction.Inbound?) && (forall r | r in outbound :: r.direction.Outbound?)
    }
  }

  datatype Page = Page(rows: seq<Row>, next: Option<Row>)

  function Visible(rows: set<Row>, before: Option<Row>): set<Row> {
    if before.None? then rows else set r | r in rows && BeforeCursor(r, before.value)
  }

  function AllVisible(log: Log, before: Option<Row>): set<Row> {
    Visible(log.inbound, before) + Visible(log.outbound, before)
  }

  /** One row more than a page of each table. */
  ghost function Candidates(log: Log, before: Option<Row>): seq<Row> {
    Newest(Visible(log.inbound, before), PAGE_SIZE + 1) + Newest(Visible(log.outbound, before), PAGE_SIZE + 1)
  }

  ghost function PageOf(candidates: seq<Row>): Page {
    var rows := Take(Sorted(Elements(candidates)), PAGE_SIZE);
    Page(rows, if |candidates| > PAGE_SIZE && rows != [] then Some(rows[|rows| - 1]) else None)
  }

  ghost function ReadPage(log: Log, before: Option<Row>): Page {
    PageOf(Candidates(log, before))
  }

  lemma TakeElements(rows: set<Row>, n: nat)
    ensures Elements(Newest(rows, n)) <= rows
    ensures |Newest(rows, n)| == if |rows| <= n then |rows| else n
  {
    SortedOk(rows);
    forall r | r in Newest(rows, n) ensures r in rows {
      assert r in Elements(Sorted(rows));
    }
  }

  lemma SizeOfPart(a: set<Row>, s: seq<Row>)
    requires a <= Elements(s)
    ensures |a| <= |s|
  {
    SubsetCardinality(a, Elements(s));
    ElementsSize(s);
  }

  lemma {:induction false} ElementsSize(s: seq<Row>)
    ensures |Elements(s)| <= |s|
  {
    if s != [] {
      ElementsSize(s[1..]);
      assert Elements(s) == Elements(s[1..]) + {s[0]};
    } else {
      assert Elements(s) == {};
    }
  }

  /** Whatever is not among the newest is below all of them. */
  lemma OthersAreBelow(all: set<Row>, n: nat, a: Row, b: Row)
    requires a in Newest(all, n) && b in all && b !in Newest(all, n)
    ensures Below(b, a)
  {
    SortedOk(all);
    var sorted := Sorted(all);
    assert b in Elements(sorted);
    assert |sorted| > n;
    HalvesOrdered(sorted, n, a, b);
  }

  lemma SortedByHalves(above: set<Row>, below: set<Row>)
    requires forall a, b | a in above && b in below :: Below(b, a)
    ensures Sorted(above + below) == Sorted(above) + Sorted(below)
  {
    SortedOk(above);
    var s := Sorted(above);
    forall a, b | a in s && b in below ensures Below(b, a) {
      assert a in Elements(s);
    }
    SortedByParts(s, below);
  }

  /** A table's own share of the newest rows comes first in the table. */
  lemma OwnShareComesFirst(all: set<Row>, own: set<Row>, n: nat)
    requires own <= all
    ensures var top := Elements(Newest(all, n));
      Sorted(own) == Sorted(own * top) + Sorted(own - top)
  {
    var top := Elements(Newest(all, n));
    forall a, b | a in own * top && b in own - top ensures Below(b, a) {
      OthersAreBelow(all, n, a, b);
    }
    SortedByHalves(own * top, own - top);
    assert own * top + (own - top) == own;
  }

  /** A row among the newest n of all is among the newest n of its own table. */
  lemma NewestOfOwnTable(all: set<Row>, own: set<Row>, n: nat, r: Row)
    requires own <= all && r in own && r in Newest(all, n)
    ensures r in Newest(own, n)
  {
    var top := Newest(all, n);
    OwnShareComesFirst(all, own, n);
    var first := own * Elements(top);
    SizeOfPart(first, top);
    SortedOk(first);
    assert r in Elements(Sorted(first));
    assert |Sorted(first)| <= n;
    InTake(Sorted(first), Sorted(own - Elements(top)), n, r);
  }

  lemma InTake(s: seq<Row>, rest: seq<Row>, n: nat, r: Row)
    requires r in s && |s| <= n
    ensures r in Take(s + rest, n)
  {
    var i :| 0 <= i < |s| && s[i] == r;
    assert Take(s + rest, n)[i] == r;
  }

  /** More candidates than a page exactly when more rows than a page. */
  lemma CandidatesCount(ins: set<Row>, outs: set<Row>, candidates: seq<Row>)
    requires ins !! outs && candidates == Newest(ins, PAGE_SIZE + 1) + Newest(outs, PAGE_SIZE + 1)
    ensures |candidates| > PAGE_SIZE <==> |ins + outs| > PAGE_SIZE
  {
    TakeElements(ins, PAGE_SIZE + 1);
    TakeElements(outs, PAGE_SIZE + 1);
  }

  lemma TablesAreDisjoint(log: Log, before: Option<Row>)
    requires log.Valid()
    ensures Visible(log.inbound, before) !! Visible(log.outbound, before)
  {
  }

  /** A page is the newest rows of the union, and there is a next page exactly when rows are left. */
  lemma PageIsNewest(log: Log, before: Option<Row>)
    requires log.Valid()
    ensures var page, all := ReadPage(log, before), AllVisible(log, before);
      && page.rows == Newest(all, PAGE_SIZE)
      && (page.next.Some? <==> |all| > PAGE_SIZE)
      && (page.next.Some? ==> page.rows != [] && page.next.value == page.rows[|page.rows| - 1])
  {
    var ins, outs := Visible(log.inbound, before), Visible(log.outbound, before);
    var candidates := Candidates(log, before);
    TablesAreDisjoint(log, before);
    CandidatesCount(ins, outs, candidates);
    CandidatesCoverPage(ins, outs, candidates);
    NewestOfSmaller(ins + outs, Elements(candidates), PAGE_SIZE);
    TakeElements(ins + outs, PAGE_SIZE);
  }

  lemma CandidatesCoverPage(ins: set<Row>, outs: set<Row>, candidates: seq<Row>)
    requires candidates == Newest(ins, PAGE_SIZE + 1) + Newest(outs, PAGE_SIZE + 1)
    ensures Elements(Newest(ins + outs, PAGE_SIZE)) <= Elements(candidates) <= ins + outs
  {
    TakeElements(ins + outs, PAGE_SIZE);
    TakeElements(ins, PAGE_SIZE + 1);
    TakeElements(outs, PAGE_SIZE + 1);
    forall r | r in Newest(ins + outs, PAGE_SIZE) ensures r in candidates {
      assert r in Elements(Newest(ins + outs, PAGE_SIZE));
      TakeMore(Sorted(ins + outs), r);
      if r in ins {
        NewestOfOwnTable(ins + outs, ins, PAGE_SIZE + 1, r);
      } else {
        NewestOfOwnTable(ins + outs, outs, PAGE_SIZE + 1, r);
      }
    }
    forall r | r in Elements(candidates) ensures r in ins + outs {
      assert r in Elements(Newest(ins, PAGE_SIZE + 1)) || r in Elements(Newest(outs, PAGE_SIZE + 1));
    }
  }

  lemma TakeMore(s: seq<Row>, r: Row)
    requires r in Take(s, PAGE_SIZE)
    ensures r in Take(s, PAGE_SIZE + 1)
  {
    var i :| 0 <= i < |Take(s, PAGE_SIZE)| && Take(s, PAGE_SIZE)[i] == r;
    assert Take(s, PAGE_SIZE + 1)[i] == r;
  }

  // ----- all pages --------------------------------------------------------------------------------------------

  function RowsBelow(all: set<Row>, cursor: Row): set<Row> {
    set r | r in all && Below(r, cursor)
  }

  lemma RestElements(all: set<Row>, n: nat)
    requires 1 <= n <= |Sorted(all)|
    ensures Elements(Sorted(RowsBelow(all, Sorted(all)[n - 1]))) == Elements(Sorted(all)[n..])
  {
    var rest := RowsBelow(all, Sorted(all)[n - 1]);
    forall r ensures r in Elements(Sorted(rest)) <==> r in Elements(Sorted(all)[n..]) {
      RestMember(all, rest, n, r);
    }
  }

  /** The rows below one of a sorted list are the rest of the list. */
  lemma RestOfSorted(all: set<Row>, n: nat)
    requires 1 <= n <= |Sorted(all)|
    ensures Sorted(RowsBelow(all, Sorted(all)[n - 1])) == Sorted(all)[n..]
  {
    SortedOk(all);
    SortedOk(RowsBelow(all, Sorted(all)[n - 1]));
    RestElements(all, n);
    LaterPartDescends(Sorted(all), n);
    SortedIsUnique(Sorted(RowsBelow(all, Sorted(all)[n - 1])), Sorted(all)[n..]);
  }

  lemma RestMember(all: set<Row>, rest: set<Row>, n: nat, r: Row)
    requires 1 <= n <= |Sorted(all)| && (r in rest <==> r in all && Below(r, Sorted(all)[n - 1]))
    ensures r in Elements(Sorted(rest)) <==> r in Elements(Sorted(all)[n..])
  {
    SortedOk(all);
    SortedOk(rest);
    TailMember(Sorted(all), n, r);
    assert r in all <==> r in Elements(Sorted(all));
  }

  lemma LaterPartDescends(s: seq<Row>, n: nat)
    requires IsDescending(s) && n <= |s|
    ensures IsDescending(s[n..])
  {
  }

  lemma TailMember(sorted: seq<Row>, n: nat, r: Row)
    requires IsDescending(sorted) && 1 <= n <= |sorted|
    ensures r in sorted[n..] <==> r in sorted && Below(r, sorted[n - 1])
  {
    if r in sorted {
      var i :| 0 <= i < |sorted| && sorted[i] == r;
      if i >= n {
        assert sorted[n..][i - n] == r;
      }
    }
    if r in sorted[n..] {
      var i :| 0 <= i < |sorted[n..]| && sorted[n..][i] == r;
      assert sorted[n + i] == r;
    }
  }

  /** The rows below the last one shown are the rest of the sorted list. */
  lemma RestBelowCursor(log: Log, before: Option<Row>, cursor: Row)
    requires log.Valid() && ReadPage(log, before).next == Some(cursor)
    requires before.Some? ==> Below(cursor, before.value)
    ensures Sorted(AllVisible(log, Some(cursor))) == Sorted(AllVisible(log, before))[PAGE_SIZE..]
    ensures |AllVisible(log, Some(cursor))| < |AllVisible(log, before)|
  {
    var all, rest := AllVisible(log, before), AllVisible(log, Some(cursor));
    PageIsNewest(log, before);
    assert cursor == Sorted(all)[PAGE_SIZE - 1];
    forall r ensures r in rest <==> r in RowsBelow(all, cursor) {
      VisibleBelow(log, before, cursor, r);
    }
    assert rest == RowsBelow(all, cursor);
    RestOfSorted(all, PAGE_SIZE);
  }

  lemma VisibleBelow(log: Log, before: Option<Row>, cursor: Row, r: Row)
    requires before.Some? ==> Below(cursor, before.value)
    ensures r in AllVisible(log, Some(cursor)) <==> r in AllVisible(log, before) && Below(r, cursor)
  {
  }

  /** Every page from here on, following the cursor until there is none. */
  ghost function AllPages(log: Log, before: Option<Row>): seq<Row>
    requires log.Valid()
    decreases |AllVisible(log, before)|
  {
    var page := ReadPage(log, before);
    if page.next.None? then page.rows
    else
      CursorMovesOn(log, before);
      page.rows + AllPages(log, page.next)
  }

  lemma CursorMovesOn(log: Log, before: Option<Row>)
    requires log.Valid() && ReadPage(log, before).next.Some?
    ensures var next := ReadPage(log, before).next;
      |AllVisible(log, next)| < |AllVisible(log, before)| && (before.Some? ==> Below(next.value, before.value))
  {
    var page := ReadPage(log, before);
    var all := AllVisible(log, before);
    PageIsNewest(log, before);
    TakeElements(all, PAGE_SIZE);
    assert page.next.value in Elements(page.rows) && page.next.value in all;
    RestBelowCursor(log, before, page.next.value);
  }

  lemma TakeAndRest(s: seq<Row>)
    ensures |s| > PAGE_SIZE ==> Take(s, PAGE_SIZE) + s[PAGE_SIZE..] == s
    ensures |s| <= PAGE_SIZE ==> Take(s, PAGE_SIZE) == s
  {
  }

  /** Paging refines sorting: the pages from any cursor on are the sorted rows below it, none skipped, none twice. */
  lemma {:induction false} PagesFromCursor(log: Log, before: Option<Row>)
    requires log.Valid()
    ensures AllPages(log, before) == Sorted(AllVisible(log, before))
    decreases |AllVisible(log, before)|
  {
    var next := ReadPage(log, before).next;
    PageIsNewest(log, before);
    TakeAndRest(Sorted(AllVisible(log, before)));
    if next.Some? {
      CursorMovesOn(log, before);
      RestBelowCursor(log, before, next.value);
      PagesFromCursor(log, next);
    }
  }

  /**
   Later rows first; of one time, what came in before what went out; of one time and direction, the
   higher id first.
   */
  predicate IsNewestFirst(s: seq<Row>) {
    forall i, j | 0 <= i < j < |s| ::
      || s[j].at < s[i].at
      || (s[j].at == s[i].at && s[i].direction.Inbound? && s[j].direction.Outbound?)
      || (s[j].at == s[i].at && s[i].direction == s[j].direction && s[j].id < s[i].id)
  }

  lemma DescendingIsNewestFirst(s: seq<Row>)
    requires IsDescending(s)
    ensures IsNewestFirst(s)
  {
  }

  /** All pages together: both tables newest first, no row missing or twice. */
  lemma PagingShowsEverythingOnce(log: Log)
    requires log.Valid()
    ensures var shown := AllPages(log, None);
      IsNewestFirst(shown) && Elements(shown) == log.inbound + log.outbound && |shown| == |log.inbound| + |log.outbound|
  {
    PagesFromCursor(log, None);
    SortedOk(log.inbound + log.outbound);
    DescendingIsNewestFirst(AllPages(log, None));
    assert log.inbound !! log.outbound;
  }

  // ----- sorting the candidates ---------------------------------------------------------------------------------

  /** Puts a row at its place in a descending list. */
  method Insert(sorted: seq<Row>, row: Row) returns (longer: seq<Row>)
    requires IsDescending(sorted) && row !in sorted
    ensures IsDescending(longer) && Elements(longer) == Elements(sorted) + {row}
  {
    var i := 0;
    while i < |sorted| && Below(row, sorted[i])
      invariant i <= |sorted|
      invariant forall j | 0 <= j < i :: Below(row, sorted[j])
    {
      i := i + 1;
    }
    longer := sorted[..i] + [row] + sorted[i..];
    InsertedDescends(sorted, row, i);
  }

  lemma InsertedDescends(sorted: seq<Row>, row: Row, i: nat)
    requires IsDescending(sorted) && row !in sorted && i <= |sorted|
    requires (forall j | 0 <= j < i :: Below(row, sorted[j])) && (i < |sorted| ==> !Below(row, sorted[i]))
    ensures var longer := sorted[..i] + [row] + sorted[i..];
      IsDescending(longer) && Elements(longer) == Elements(sorted) + {row}
  {
    assert i < |sorted| ==> sorted[i] in sorted && Below(sorted[i], row);
    assert forall a, b | a in sorted[..i] && b in [row] :: Below(b, a);
    ConcatDescending(sorted[..i], [row]);
    forall a, b | a in sorted[..i] + [row] && b in sorted[i..] ensures Below(b, a) {
      var k :| i <= k < |sorted| && sorted[k] == b;
    }
    ConcatDescending(sorted[..i] + [row], sorted[i..]);
    assert sorted == sorted[..i] + sorted[i..];
    assert Elements([row]) == {row};
    forall r ensures r in Elements(sorted) <==> r in Elements(sorted[..i]) + Elements(sorted[i..]) {
    }
  }

  predicate IsSortOf(sorted: seq<Row>, rows: seq<Row>) {
    IsDescending(sorted) && Elements(sorted) == Elements(rows) && |sorted| == |rows|
  }

  lemma SortGrows(sorted: seq<Row>, longer: seq<Row>, rows: seq<Row>, row: Row)
    requires IsSortOf(sorted, rows) && IsDescending(longer) && row !in sorted
      && Elements(longer) == Elements(sorted) + {row}
    ensures IsSortOf(longer, rows + [row])
  {
    SameSize(sorted, row, longer);
    assert Elements(rows + [row]) == Elements(rows) + {row};
  }

  lemma SortOfIsSorted(sorted: seq<Row>, rows: seq<Row>)
    requires IsSortOf(sorted, rows)
    ensures sorted == Sorted(Elements(rows))
  {
    SortedOk(Elements(rows));
    SortedIsUnique(sorted, Sorted(Elements(rows)));
  }

  lemma NotThereYet(sorted: seq<Row>, rows: seq<Row>, i: nat)
    requires i < |rows| && IsSortOf(sorted, rows[..i]) && forall a, b | 0 <= a < b < |rows| :: rows[a] != rows[b]
    ensures rows[i] !in sorted
  {
    assert rows[i] !in Elements(rows[..i]);
    assert rows[i] in sorted <==> rows[i] in Elements(sorted);
  }

  method InsertNext(sorted: seq<Row>, rows: seq<Row>, i: nat) returns (longer: seq<Row>)
    requires i < |rows| && IsSortOf(sorted, rows[..i]) && forall a, b | 0 <= a < b < |rows| :: rows[a] != rows[b]
    ensures IsSortOf(longer, rows[..i + 1])
  {
    NotThereYet(sorted, rows, i);
    longer := Insert(sorted, rows[i]);
    SortGrows(sorted, longer, rows[..i], rows[i]);
    assert rows[..i + 1] == rows[..i] + [rows[i]];
  }

  /** A page from the rows both queries returned: merged, sorted and cut. */
  method MergePage(rows: seq<Row>) returns (page: Page)
    requires forall i, j | 0 <= i < j < |rows| :: rows[i] != rows[j]
    ensures page == PageOf(rows)
  {
    var sorted := [];
    var i := 0;
    assert IsSortOf([], rows[..0]);
    while i < |rows|
      invariant i <= |rows| && IsSortOf(sorted, rows[..i])
    {
      sorted := InsertNext(sorted, rows, i);
      i := i + 1;
    }
    assert rows[..|rows|] == rows;
    SortOfIsSorted(sorted, rows);
    var shown := Take(sorted, PAGE_SIZE);
    page := Page(shown, if |rows| > PAGE_SIZE then Some(shown[|shown| - 1]) else None);
  }

  lemma SameSize(was: seq<Row>, row: Row, longer: seq<Row>)
    requires IsDescending(was) && IsDescending(longer) && row !in was && Elements(longer) == Elements(was) + {row}
    ensures |longer| == |was| + 1
  {
    SortedOk(Elements(was));
    SortedOk(Elements(longer));
    SortedIsUnique(was, Sorted(Elements(was)));
    SortedIsUnique(longer, Sorted(Elements(longer)));
  }
}
