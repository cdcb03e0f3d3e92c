/**
 Reading a table page by page, each page starting after the last primary key of the one before, while the table
 changes.
 */
module Pagination {
  import opened Prelude
  import opened Slicing

  datatype Outcome = Pages(pages: seq<seq<nat>>) | ValueError

  /** The primary keys of the matching rows in key order, as each query in turn finds them. */
  type Snapshots = nat -> seq<nat>

  ghost predicate Ascending(s: seq<nat>) {
    forall i, j | 0 <= i < j < |s| :: s[i] < s[j]
  }

  /** No key ever exceeds the bound. */
  ghost predicate Capped(snap: Snapshots, maxPk: nat) {
    forall n, pk | pk in snap(n) :: pk <= maxPk
  }

  /** Every query finds the rows in key order. */
  ghost predicate InOrder(snap: Snapshots) {
    forall n :: Ascending(snap(n))
  }

  predicate Follows(pk: nat, last: Option<nat>) {
    last.Some? ==> pk > last.value
  }

  /** The rows after the given key; all of them when there is none. */
  function Later(rows: seq<nat>, last: Option<nat>): seq<nat> {
    if rows == [] then []
    else (if Follows(rows[0], last) then [rows[0]] else []) + Later(rows[1..], last)
  }

  function Page(rows: seq<nat>, last: Option<nat>, size: nat): seq<nat> {
    var later := Later(rows, last);
    if |later| <= size then later else later[..size]
  }

  function Progress(last: Option<nat>): nat {
    if last.Some? then last.value + 1 else 0
  }

  lemma {:induction false} LaterMembers(rows: seq<nat>, last: Option<nat>)
    ensures forall pk :: pk in Later(rows, last) <==> pk in rows && Follows(pk, last)
  {
    if rows != [] {
      LaterMembers(rows[1..], last);
    }
  }

  lemma {:induction false} LaterAscends(rows: seq<nat>, last: Option<nat>)
    requires Ascending(rows)
    ensures Ascending(Later(rows, last))
  {
    if rows != [] {
      LaterAscends(rows[1..], last);
      LaterMembers(rows[1..], last);
      assert forall i | 0 <= i < |rows[1..]| :: rows[0] < rows[1..][i];
      AscendingCons(rows[0], Later(rows[1..], last));
    }
  }

  lemma AscendingCons(pk: nat, s: seq<nat>)
    requires Ascending(s) && forall q | q in s :: pk < q
    ensures Ascending([pk] + s)
  {
    forall i, j | 0 <= i < j < |s| + 1
      ensures ([pk] + s)[i] < ([pk] + s)[j]
    {
      assert s[j - 1] in s;
    }
  }

  lemma PageMembers(rows: seq<nat>, last: Option<nat>, size: nat)
    ensures forall pk | pk in Page(rows, last, size) :: pk in rows && Follows(pk, last)
  {
    LaterMembers(rows, last);
  }

  /** A page holds, in order, rows after the last key; a row it does not reach comes after everything on it. */
  lemma PageShape(rows: seq<nat>, last: Option<nat>, size: nat)
    requires Ascending(rows)
    ensures Ascending(Page(rows, last, size)) && |Page(rows, last, size)| <= size
    ensures forall pk | pk in Page(rows, last, size) :: pk in rows && Follows(pk, last)
    ensures var page := Page(rows, last, size);
            forall pk, q | pk in rows && Follows(pk, last) && pk !in page && q in page :: q < pk
    ensures size > 0 && Page(rows, last, size) == [] ==> forall pk | pk in rows :: !Follows(pk, last)
  {
    var later, page := Later(rows, last), Page(rows, last, size);
    LaterMembers(rows, last);
    LaterAscends(rows, last);
    assert forall i | 0 <= i < |page| :: page[i] == later[i];
    forall pk, q | pk in later && pk !in page && q in page
      ensures q < pk
    {
      var i :| 0 <= i < |later| && later[i] == pk;
      var j :| 0 <= j < |page| && page[j] == q;
      assert i >= |page|;
    }
    if size > 0 && page == [] {
      assert later == [];
    }
  }

  // ---------------------------------------------------------------- the two loops

  function EndOf(page: seq<nat>): Option<nat> {
    if page == [] then None else Some(page[|page| - 1])
  }

  /** The pages from query n on; the distance from the last key to the bound shrinks with every page. */
  ghost function PagesFrom(snap: Snapshots, size: nat, n: nat, last: Option<nat>, maxPk: nat): seq<seq<nat>>
    requires size > 0 && Capped(snap, maxPk) && Progress(last) <= maxPk + 1
    decreases maxPk + 1 - Progress(last)
  {
    var page := Page(snap(n), last, size);
    if page == [] then []
    else
      PageMembers(snap(n), last, size);
      assert page[|page| - 1] in page;
      [page] + PagesFrom(snap, size, n + 1, EndOf(page), maxPk)
  }

  /** One turn of the loop: the page it reads, and where the next one starts. */
  lemma Turn(snap: Snapshots, size: nat, n: nat, last: Option<nat>, maxPk: nat, page: seq<nat>)
    requires size > 0 && Capped(snap, maxPk) && Progress(last) <= maxPk + 1 && page == Page(snap(n), last, size)
    ensures page == [] ==> PagesFrom(snap, size, n, last, maxPk) == []
    ensures page != [] ==>
              && Progress(last) < Progress(EndOf(page)) <= maxPk + 1
              && PagesFrom(snap, size, n, last, maxPk) == [page] + PagesFrom(snap, size, n + 1, EndOf(page), maxPk)
  {
    PageMembers(snap(n), last, size);
    if page != [] {
      assert page[|page| - 1] in page;
    }
  }

  /**
   Ends because a page always advances the key; without the bound a table that keeps growing could be read forever.
   */
  method IterQuerysetInBatches(snap: Snapshots, batchSize: int, ghost maxPk: nat) returns (r: Outcome)
    requires Capped(snap, maxPk)
    ensures batchSize < 1 <==> r == ValueError
    ensures batchSize >= 1 ==> r == Pages(PagesFrom(snap, batchSize, 0, None, maxPk))
  {
    if batchSize < 1 {
      return ValueError;
    }
    var pages, lastPk, n := [], None, 0;
    ghost var all := PagesFrom(snap, batchSize, 0, None, maxPk);
    while true
      invariant Progress(lastPk) <= maxPk + 1
      invariant pages + PagesFrom(snap, batchSize, n, lastPk, maxPk) == all
      decreases maxPk + 1 - Progress(lastPk)
    {
      var current := Page(snap(n), lastPk, batchSize);
      Turn(snap, batchSize, n, lastPk, maxPk, current);
      if current == [] {
        break;
      }
      ghost var left := PagesFrom(snap, batchSize, n + 1, EndOf(current), maxPk);
      ConcatAssociates(pages, [current], left);
      pages, lastPk, n := pages + [current], EndOf(current), n + 1;
    }
    r := Pages(pages);
  }

  /** A sliced query has no last row to ask for, so the page is walked to its end. */
  method LastOf(page: seq<nat>) returns (pk: nat)
    requires page != []
    ensures pk == page[|page| - 1]
  {
    pk := page[0];
    for i := 0 to |page|
      invariant pk == if i == 0 then page[0] else page[i - 1]
    {
      pk := page[i];
    }
  }

  /** The older loop asks for the next page before testing it, and reaches the last key by walking the page. */
  method BatchByPk(snap: Snapshots, batchSize: nat, ghost maxPk: nat) returns (pages: seq<seq<nat>>)
    requires batchSize > 0 && Capped(snap, maxPk)
    ensures pages == PagesFrom(snap, batchSize, 0, None, maxPk)
  {
    pages := [];
    var n := 0;
    ghost var last: Option<nat> := None;
    var qs := Page(snap(0), None, batchSize);
    while qs != []
      invariant Progress(last) <= maxPk + 1 && qs == Page(snap(n), last, batchSize)
      invariant pages + PagesFrom(snap, batchSize, n, last, maxPk) == PagesFrom(snap, batchSize, 0, None, maxPk)
      decreases maxPk + 1 - Progress(last)
    {
      Turn(snap, batchSize, n, last, maxPk, qs);
      var startPk := LastOf(qs);
      ghost var left := PagesFrom(snap, batchSize, n + 1, Some(startPk), maxPk);
      ConcatAssociates(pages, [qs], left);
      pages, last, n := pages + [qs], Some(startPk), n + 1;
      qs := Page(snap(n), Some(startPk), batchSize);
    }
  }

  // ---------------------------------------------------------------- what the pages hold

  /** The keys come out strictly increasing, all after the starting key. */
  lemma {:induction false} KeysIncrease(snap: Snapshots, size: nat, n: nat, last: Option<nat>, maxPk: nat)
    requires size > 0 && Capped(snap, maxPk) && InOrder(snap) && Progress(last) <= maxPk + 1
    ensures Ascending(Flat(PagesFrom(snap, size, n, last, maxPk)))
    ensures forall pk | pk in Flat(PagesFrom(snap, size, n, last, maxPk)) :: Follows(pk, last)
    decreases maxPk + 1 - Progress(last)
  {
    var page := Page(snap(n), last, size);
    PageShape(snap(n), last, size);
    Turn(snap, size, n, last, maxPk, page);
    if page != [] {
      var end := EndOf(page);
      var pages := PagesFrom(snap, size, n + 1, end, maxPk);
      KeysIncrease(snap, size, n + 1, end, maxPk);
      FlatFront(page, pages);
      AscendingConcat(page, Flat(pages));
    }
  }

  lemma FlatFront(page: seq<nat>, pages: seq<seq<nat>>)
    ensures Flat([page] + pages) == page + Flat(pages)
  {
    assert ([page] + pages)[1..] == pages;
  }

  lemma AscendingConcat(a: seq<nat>, b: seq<nat>)
    requires Ascending(a) && Ascending(b) && a != []
    requires forall pk | pk in b :: pk > a[|a| - 1]
    ensures Ascending(a + b)
  {
    forall i, j | 0 <= i < j < |a + b|
      ensures (a + b)[i] < (a + b)[j]
    {
      if i < |a| <= j {
        assert b[j - |a|] in b;
        assert a[i] <= a[|a| - 1] < b[j - |a|];
      }
    }
  }

  /** The pages put together, first page first. */
  function Flat(pages: seq<seq<nat>>): seq<nat> {
    if pages == [] then [] else pages[0] + Flat(pages[1..])
  }

  /** A row that every query finds is on one of the pages; with increasing keys, exactly once. */
  lemma {:induction false} LastingRowIsRead(snap: Snapshots, size: nat, n: nat, last: Option<nat>, maxPk: nat, pk: nat)
    requires size > 0 && Capped(snap, maxPk) && InOrder(snap) && Progress(last) <= maxPk + 1
    requires Follows(pk, last) && forall m | m >= n :: pk in snap(m)
    ensures pk in Flat(PagesFrom(snap, size, n, last, maxPk))
    decreases maxPk + 1 - Progress(last)
  {
    var page := Page(snap(n), last, size);
    PageShape(snap(n), last, size);
    Turn(snap, size, n, last, maxPk, page);
    assert pk in snap(n);
    var end := EndOf(page);
    FlatFront(page, PagesFrom(snap, size, n + 1, end, maxPk));
    if pk !in page {
      assert page[|page| - 1] in page;
      LastingRowIsRead(snap, size, n + 1, end, maxPk, pk);
    }
  }

  /** A row that existed and matched throughout is yielded exactly once. */
  lemma LastingRowReadOnce(snap: Snapshots, size: nat, maxPk: nat, pk: nat) returns (i: nat)
    requires size > 0 && Capped(snap, maxPk) && InOrder(snap) && forall m :: pk in snap(m)
    ensures var flat := Flat(PagesFrom(snap, size, 0, None, maxPk));
            i < |flat| && flat[i] == pk && forall j | 0 <= j < |flat| && flat[j] == pk :: j == i
  {
    KeysIncrease(snap, size, 0, None, maxPk);
    LastingRowIsRead(snap, size, 0, None, maxPk, pk);
    var flat := Flat(PagesFrom(snap, size, 0, None, maxPk));
    i :| 0 <= i < |flat| && flat[i] == pk;
  }

  /** The page that query m yields, and the key it started after. */
  lemma {:induction false} PageNumber(snap: Snapshots, size: nat, n: nat, last: Option<nat>, maxPk: nat,
      pages: seq<seq<nat>>, m: nat)
      returns (from: Option<nat>)
    requires size > 0 && Capped(snap, maxPk) && Progress(last) <= maxPk + 1
    requires pages == PagesFrom(snap, size, n, last, maxPk) && n <= m < n + |pages|
    ensures pages[m - n] != [] && pages[m - n] == Page(snap(m), from, size)
    decreases m - n
  {
    var page := Page(snap(n), last, size);
    Turn(snap, size, n, last, maxPk, page);
    if m == n {
      from := last;
    } else {
      var rest := PagesFrom(snap, size, n + 1, EndOf(page), maxPk);
      from := PageNumber(snap, size, n + 1, EndOf(page), maxPk, rest, m);
      ConsIndex(page, rest, m - n);
    }
  }

  lemma ConsIndex(page: seq<nat>, rest: seq<seq<nat>>, i: nat)
    requires 0 < i <= |rest|
    ensures ([page] + rest)[i] == rest[i - 1]
  {
  }

  /** Nothing is read that was not there: page i comes from the rows query i found, and is not empty or too long. */
  lemma PagesAreReal(snap: Snapshots, size: nat, maxPk: nat, i: nat)
    requires size > 0 && Capped(snap, maxPk) && InOrder(snap) && i < |PagesFrom(snap, size, 0, None, maxPk)|
    ensures var page := PagesFrom(snap, size, 0, None, maxPk)[i];
            0 < |page| <= size && forall pk | pk in page :: pk in snap(i)
  {
    var from := PageNumber(snap, size, 0, None, maxPk, PagesFrom(snap, size, 0, None, maxPk), i);
    PageShape(snap(i), from, size);
  }

  // ---------------------------------------------------------------- a table that does not change

  lemma {:induction false} LaterIsSuffix(rows: seq<nat>, from: nat)
    requires Ascending(rows) && 0 < from <= |rows|
    ensures Later(rows, Some(rows[from - 1])) == rows[from..]
  {
    var later, last := Later(rows, Some(rows[from - 1])), Some(rows[from - 1]);
    assert Ascending(rows[1..]);
    if from == 1 {
      LaterAll(rows[1..], last);
    } else {
      LaterIsSuffix(rows[1..], from - 1);
      assert rows[1..][from - 2] == rows[from - 1];
    }
  }

  lemma {:induction false} LaterAll(rows: seq<nat>, last: Option<nat>)
    requires forall i | 0 <= i < |rows| :: Follows(rows[i], last)
    ensures Later(rows, last) == rows
  {
    if rows != [] {
      LaterAll(rows[1..], last);
    }
  }

  function KeyBefore(rows: seq<nat>, from: nat): Option<nat>
    requires from <= |rows|
  {
    if from == 0 then None else Some(rows[from - 1])
  }

  lemma KeyBeforeBounded(snap: Snapshots, rows: seq<nat>, from: nat, maxPk: nat)
    requires Capped(snap, maxPk) && snap(0) == rows && from <= |rows|
    ensures Progress(KeyBefore(rows, from)) <= maxPk + 1
  {
    assert from > 0 ==> rows[from - 1] in rows;
  }

  lemma FixedPage(rows: seq<nat>, size: nat, from: nat)
    requires size > 0 && Ascending(rows) && from <= |rows|
    ensures Page(rows, KeyBefore(rows, from), size)
            == rows[from..if from + size < |rows| then from + size else |rows|]
  {
    if from == 0 {
      LaterAll(rows, None);
    } else {
      LaterIsSuffix(rows, from);
    }
  }

  lemma EndOfSlice(rows: seq<nat>, from: nat, to: nat)
    requires from < to <= |rows|
    ensures EndOf(rows[from..to]) == KeyBefore(rows, to)
  {
  }

  /** On a fixed table the pages are its consecutive slices, so together they are the whole table. */
  lemma {:induction false} FixedTablePages(snap: Snapshots, rows: seq<nat>, size: nat, n: nat, from: nat, maxPk: nat,
      pages: seq<seq<nat>>)
    requires size > 0 && Capped(snap, maxPk) && (forall m :: snap(m) == rows) && Ascending(rows) && from <= |rows|
    requires Progress(KeyBefore(rows, from)) <= maxPk + 1
            && pages == PagesFrom(snap, size, n, KeyBefore(rows, from), maxPk)
    ensures pages == SlicesFrom(rows, size, from)
    decreases |rows| - from
  {
    var to := if from + size < |rows| then from + size else |rows|;
    var page := Page(snap(n), KeyBefore(rows, from), size);
    Turn(snap, size, n, KeyBefore(rows, from), maxPk, page);
    FixedPage(rows, size, from);
    if from < |rows| {
      KeyBeforeBounded(snap, rows, to, maxPk);
      EndOfSlice(rows, from, to);
      var rest := PagesFrom(snap, size, n + 1, KeyBefore(rows, to), maxPk);
      FixedTablePages(snap, rows, size, n + 1, to, maxPk, rest);
    }
  }

  lemma FixedTableReadWhole(snap: Snapshots, rows: seq<nat>, size: nat, maxPk: nat)
    requires size > 0 && Capped(snap, maxPk) && (forall m :: snap(m) == rows) && Ascending(rows)
    ensures Flatten(PagesFrom(snap, size, 0, None, maxPk)) == rows
  {
    FixedTablePages(snap, rows, size, 0, 0, maxPk, PagesFrom(snap, size, 0, None, maxPk));
    SlicesJoin(rows, size, 0);
    assert rows[0..] == rows;
  }
}
