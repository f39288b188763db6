// Pages of an ordered result set (src/backend/services/servers.service.ts, src/backend/services/accounts.service.ts).
module Paging {

  function Least(a: int, b: int): int { if a < b then a else b }

  // `findMany` with `skip` and `take`.
  function Slice<T>(rows: seq<T>, skip: nat, take: nat): seq<T> {
    rows[Least(skip, |rows|)..Least(skip + take, |rows|)]
  }

  // Page numbers start at 1.
  function Page<T>(rows: seq<T>, page: nat, pageSize: nat): seq<T>
    requires page >= 1
  {
    Slice(rows, (page - 1) * pageSize, pageSize)
  }

  function Pages<T>(rows: seq<T>, upTo: nat, pageSize: nat): seq<T> {
    if upTo == 0 then [] else Pages(rows, upTo - 1, pageSize) + Page(rows, upTo, pageSize)
  }

  function PageCount(total: nat, pageSize: nat): nat
    requires pageSize >= 1
  {
    (total + pageSize - 1) / pageSize
  }

  lemma {:induction false} PagesSoFar<T>(rows: seq<T>, upTo: nat, pageSize: nat)
    ensures Pages(rows, upTo, pageSize) == rows[..Least(upTo * pageSize, |rows|)]
  {
    if upTo > 0 {
      PagesSoFar(rows, upTo - 1, pageSize);
      var skip := (upTo - 1) * pageSize;
      assert upTo * pageSize == skip + pageSize;
      assert rows[..Least(skip, |rows|)] + rows[Least(skip, |rows|)..Least(skip + pageSize, |rows|)] ==
             rows[..Least(skip + pageSize, |rows|)];
    }
  }

  // Reading the pages one after the other reads every row once, in order.
  lemma PagesCover<T>(rows: seq<T>, pageSize: nat)
    requires pageSize >= 1
    ensures Pages(rows, PageCount(|rows|, pageSize), pageSize) == rows
  {
    var n := PageCount(|rows|, pageSize);
    PageBounds(|rows|, pageSize);
    PagesSoFar(rows, n, pageSize);
    assert rows[..|rows|] == rows;
  }

  // No page after the last holds a row, and none before it can be left out.
  lemma LastPage<T>(rows: seq<T>, page: nat, pageSize: nat)
    requires pageSize >= 1 && page >= 1
    ensures Page(rows, page, pageSize) != [] <==> page <= PageCount(|rows|, pageSize)
  {
    hide PageCount;
    NonemptyPage(|rows|, page, pageSize);
    SliceNonempty(rows, (page - 1) * pageSize, pageSize);
  }

  lemma SliceNonempty<T>(rows: seq<T>, skip: nat, take: nat)
    requires take >= 1
    ensures Slice(rows, skip, take) != [] <==> skip < |rows|
  {
  }

  lemma PageBounds(total: nat, pageSize: nat)
    requires pageSize >= 1
    ensures total <= PageCount(total, pageSize) * pageSize < total + pageSize
  {
    var n := PageCount(total, pageSize);
    assert total + pageSize - 1 == n * pageSize + (total + pageSize - 1) % pageSize;
  }

  lemma NonemptyPage(total: nat, page: nat, pageSize: nat)
    requires pageSize >= 1 && page >= 1
    ensures (page - 1) * pageSize < total <==> page <= PageCount(total, pageSize)
  {
    var n := PageCount(total, pageSize);
    PageBounds(total, pageSize);
    if page <= n {
      Monotone(page - 1, n - 1, pageSize);
      assert (n - 1) * pageSize == n * pageSize - pageSize;
    } else {
      Monotone(n, page - 1, pageSize);
    }
  }

  lemma Monotone(a: int, b: int, c: nat)
    requires a <= b
    ensures a * c <= b * c
  {
    assert (b - a) * c >= 0;
  }
}
