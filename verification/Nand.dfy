/** NAND access of mtdutils.c: whole pages, padded at the end, over bad blocks. */
module Nand {
  import opened Common
  import opened FlashCells

  // ---------- Multiples ----------

  lemma {:induction false} TimesAtLeast(d: nat, k: nat)
    requires 1 <= k
    ensures d * k >= d
  {
    if k > 1 {
      TimesAtLeast(d, k - 1);
      assert d * k == d * (k - 1) + d;
    }
  }

  lemma QuotientBelow(d: nat, q: nat, r: nat, q': nat, r': nat)
    requires r < d && d * q + r >= d * q' + r'
    ensures q' <= q
  {
    if q < q' {
      assert d * q' == d * q + d * (q' - q);
      TimesAtLeast(d, q' - q);
    }
  }

  lemma DivMod(x: nat, d: nat, q: nat, r: nat)
    requires 0 < d && x == d * q + r && r < d
    ensures x / d == q && x % d == r
  {
    var q', r' := x / d, x % d;
    assert x == d * q' + r';
    QuotientBelow(d, q, r, q', r');
    QuotientBelow(d, q', r', q, r);
  }

  lemma MultipleAdds(x: nat, y: nat, d: nat)
    requires 0 < d && x % d == 0 && y % d == 0
    ensures (x + y) % d == 0
  {
    var a, b := x / d, y / d;
    assert x == d * a && y == d * b;
    assert x + y == d * (a + b);
    DivMod(x + y, d, a + b, 0);
  }

  lemma MultipleGap(x: nat, y: nat, d: nat)
    requires 0 < d && x % d == 0 && y % d == 0 && x < y
    ensures x + d <= y
  {
    var a, b := x / d, y / d;
    assert x == d * a && y == d * b;
    QuotientBelow(d, b, 0, a, 0);
    TimesAtLeast(d, b - a);
    assert d * b == d * a + d * (b - a);
  }

  // ---------- The device ----------

  // What MEMGETINFO and MEMGETBADBLOCK report.
  datatype Geometry = Geometry(page: nat, erase: nat, size: nat, bad: set<nat>) {
    predicate Valid() {
      0 < page <= erase && erase % page == 0 && size % erase == 0 && size % page == 0
    }
  }

  // The pages that n bytes take from start on, and the position after the last page, or None
  // when the bad-block query fails at the end of the device.
  datatype Trace = Trace(pages: seq<nat>, end: Option<nat>)

  function Walk(g: Geometry, start: nat, n: nat): Trace
    requires 0 < g.page <= g.erase
    decreases g.size - start
  {
    if n == 0 then Trace([], Some(start))
    else if start >= g.size then Trace([], None)
    else if start % g.erase == 0 && start / g.erase in g.bad then Walk(g, start + g.erase, n)
    else
      var rest := Walk(g, start + g.page, n - Min(n, g.page));
      Trace([start] + rest.pages, rest.end)
  }

  // Bytes that the last page has over.
  function Padding(page: nat, n: nat): nat
    requires 0 < page
  {
    if n == 0 then 0 else if n < page then page - n else Padding(page, n - page)
  }

  predicate Inside(pages: seq<nat>, page: nat, size: nat) {
    forall i | 0 <= i < |pages| :: pages[i] + page <= size
  }

  // One page written, its unused end filled with 0xFF.
  function Laid(cells: Data, page: nat, at: nat, data: Data): (s: Data)
    requires at + page <= |cells|
    ensures |s| == |cells|
  {
    var m := Min(|data|, page);
    cells[..at] + (data[..m] + Blank(page - m)) + cells[at + page..]
  }

  // The cells with data laid over the pages.
  function Stored(cells: Data, page: nat, pages: seq<nat>, data: Data): (s: Data)
    requires Inside(pages, page, |cells|)
    ensures |s| == |cells|
    decreases |pages|
  {
    if pages == [] then cells
    else
      Stored(Laid(cells, page, pages[0], data), page, pages[1..], data[Min(|data|, page)..])
  }

  // The n bytes that the pages hold.
  function Fetched(cells: Data, page: nat, pages: seq<nat>, n: nat): Data
    requires Inside(pages, page, |cells|)
    decreases |pages|
  {
    if pages == [] then []
    else
      var m := Min(n, page);
      cells[pages[0]..pages[0] + m] + Fetched(cells, page, pages[1..], n - m)
  }

  // Pages follow each other without overlap, from start on, inside the device.
  ghost predicate Apart(g: Geometry, start: nat, pages: seq<nat>)
    decreases |pages|
  {
    pages == [] || (start <= pages[0] && pages[0] + g.page <= g.size && Apart(g, pages[0] + g.page, pages[1..]))
  }

  lemma {:induction false} ApartAfter(g: Geometry, start: nat, pages: seq<nat>)
    requires Apart(g, start, pages)
    ensures Inside(pages, g.page, g.size) && forall i | 0 <= i < |pages| :: start <= pages[i]
    decreases |pages|
  {
    if pages != [] {
      ApartAfter(g, pages[0] + g.page, pages[1..]);
      assert forall i | 0 < i < |pages| :: pages[i] == pages[1..][i - 1];
    }
  }

  lemma {:induction false} WalkIsApart(g: Geometry, start: nat, n: nat)
    requires g.Valid() && start % g.page == 0
    ensures Apart(g, start, Walk(g, start, n).pages)
    ensures Inside(Walk(g, start, n).pages, g.page, g.size)
    decreases g.size - start
  {
    var t := Walk(g, start, n);
    if n != 0 && start < g.size {
      if start % g.erase == 0 && start / g.erase in g.bad {
        MultipleAdds(start, g.erase, g.page);
        WalkIsApart(g, start + g.erase, n);
        EarlierStart(g, start, start + g.erase, t.pages);
      } else {
        MultipleGap(start, g.size, g.page);
        MultipleAdds(start, g.page, g.page);
        WalkIsApart(g, start + g.page, n - Min(n, g.page));
      }
    }
    ApartAfter(g, start, t.pages);
  }

  lemma EarlierStart(g: Geometry, start: nat, later: nat, pages: seq<nat>)
    requires start <= later && Apart(g, later, pages)
    ensures Apart(g, start, pages)
  {
  }

  // ---------- Reading what was written ----------

  lemma {:induction false} StoredKeepsBelow(g: Geometry, cells: Data, start: nat, pages: seq<nat>, data: Data)
    requires Apart(g, start, pages) && |cells| == g.size && Inside(pages, g.page, g.size) && start <= g.size
    ensures Stored(cells, g.page, pages, data)[..start] == cells[..start]
    decreases |pages|
  {
    hide Laid;
    if pages != [] {
      var next := Laid(cells, g.page, pages[0], data);
      var left := data[Min(|data|, g.page)..];
      StoredKeepsBelow(g, next, pages[0] + g.page, pages[1..], left);
      LaidChunk(cells, g.page, pages[0], data);
      var s := Stored(next, g.page, pages[1..], left);
      assert s[..start] == s[..pages[0] + g.page][..start];
      assert next[..start] == next[..pages[0]][..start];
    }
  }

  // Cells outside the pages of the walk keep their value.
  lemma {:induction false} StoredElsewhere(cells: Data, page: nat, pages: seq<nat>, data: Data, q: nat)
    requires Inside(pages, page, |cells|) && q < |cells|
    requires forall i | 0 <= i < |pages| :: !(pages[i] <= q < pages[i] + page)
    ensures Stored(cells, page, pages, data)[q] == cells[q]
    decreases |pages|
  {
    if pages != [] {
      assert forall i | 0 <= i < |pages[1..]| :: pages[1..][i] == pages[i + 1];
      StoredElsewhere(Laid(cells, page, pages[0], data), page, pages[1..], data[Min(|data|, page)..], q);
    }
  }

  lemma LaidChunk(cells: Data, page: nat, at: nat, data: Data)
    requires at + page <= |cells|
    ensures var m := Min(|data|, page);
      Laid(cells, page, at, data)[..at] == cells[..at] && Laid(cells, page, at, data)[at..at + m] == data[..m]
  {
  }

  lemma FetchedNone(cells: Data, page: nat)
    ensures Fetched(cells, page, [], 0) == []
  {
  }

  lemma {:induction false} FetchedStored(g: Geometry, cells: Data, start: nat, data: Data)
    requires g.Valid() && start % g.page == 0 && |cells| == g.size && Walk(g, start, |data|).end.Some?
    ensures var pages := Walk(g, start, |data|).pages;
      && Inside(pages, g.page, g.size)
      && Fetched(Stored(cells, g.page, pages, data), g.page, pages, |data|) == data
    decreases g.size - start
  {
    hide Laid, Stored, Fetched, Apart;
    var pages := Walk(g, start, |data|).pages;
    WalkIsApart(g, start, |data|);
    if |data| == 0 {
      FetchedNone(Stored(cells, g.page, pages, data), g.page);
    } else if start % g.erase == 0 && start / g.erase in g.bad {
      MultipleAdds(start, g.erase, g.page);
      FetchedStored(g, cells, start + g.erase, data);
    } else {
      var m := Min(|data|, g.page);
      MultipleAdds(start, g.page, g.page);
      assert pages[0] == start && pages[1..] == Walk(g, start + g.page, |data| - m).pages;
      FetchedStored(g, Laid(cells, g.page, start, data), start + g.page, data[m..]);
      WalkIsApart(g, start + g.page, |data| - m);
      FirstPage(g, cells, start, pages, data);
    }
  }

  lemma StoredTakes(cells: Data, page: nat, pos: nat, pages: seq<nat>, data: Data)
    requires Inside([pos] + pages, page, |cells|) && pos + page <= |cells| && Inside(pages, page, |cells|)
    ensures Stored(cells, page, [pos] + pages, data)
      == Stored(Laid(cells, page, pos, data), page, pages, data[Min(|data|, page)..])
  {
    assert ([pos] + pages)[1..] == pages;
  }

  lemma FetchedTakes(cells: Data, page: nat, pos: nat, pages: seq<nat>, n: nat)
    requires Inside([pos] + pages, page, |cells|) && pos + page <= |cells| && Inside(pages, page, |cells|)
    ensures Fetched(cells, page, [pos] + pages, n)
      == cells[pos..pos + Min(n, page)] + Fetched(cells, page, pages, n - Min(n, page))
  {
    assert ([pos] + pages)[1..] == pages;
  }

  lemma SliceOfPrefix(s: Data, a: nat, b: nat, n: nat)
    requires a <= b <= n <= |s|
    ensures s[..n][a..b] == s[a..b]
  {
  }

  lemma FirstPage(g: Geometry, cells: Data, start: nat, pages: seq<nat>, data: Data)
    requires |cells| == g.size && pages != [] && pages[0] == start && Inside(pages, g.page, g.size)
    requires Apart(g, start + g.page, pages[1..])
    requires var m, next := Min(|data|, g.page), Laid(cells, g.page, start, data);
      Fetched(Stored(next, g.page, pages[1..], data[m..]), g.page, pages[1..], |data| - m) == data[m..]
    ensures Fetched(Stored(cells, g.page, pages, data), g.page, pages, |data|) == data
  {
    hide Laid, Apart, Stored, Fetched;
    var m, next := Min(|data|, g.page), Laid(cells, g.page, start, data);
    assert pages == [start] + pages[1..];
    StoredTakes(cells, g.page, start, pages[1..], data);
    FetchedTakes(Stored(cells, g.page, pages, data), g.page, start, pages[1..], |data|);
    LaidChunk(cells, g.page, start, data);
    StoredKeepsBelow(g, next, start + g.page, pages[1..], data[m..]);
    var s := Stored(next, g.page, pages[1..], data[m..]);
    SliceOfPrefix(s, start, start + m, start + g.page);
    SliceOfPrefix(next, start, start + m, start + g.page);
    assert data == data[..m] + data[m..];
  }

  // ---------- What fits ----------

  function PagesFor(page: nat, n: nat): nat
    requires 0 < page
  {
    if n == 0 then 0 else 1 + PagesFor(page, n - Min(n, page))
  }

  // The least number of pages that hold n bytes, and what the last one has over.
  lemma {:induction false} PagesExactly(page: nat, n: nat)
    requires 0 < page
    ensures PagesFor(page, n) * page == n + Padding(page, n) && Padding(page, n) < page
    decreases n
  {
    if n >= page {
      PagesExactly(page, n - page);
      OneMorePage(PagesFor(page, n - page), page);
    } else if n > 0 {
      assert PagesFor(page, 0) == 0 && PagesFor(page, n) == 1;
      OneMorePage(0, page);
    } else {
      assert PagesFor(page, 0) == 0;
    }
  }

  lemma OneMorePage(k: nat, page: nat)
    ensures (1 + k) * page == page + k * page && 0 * page == 0
  {
  }

  // As many pages as the bytes need, and the position behind the last one.
  lemma {:induction false} WalkEndsBehind(g: Geometry, start: nat, n: nat)
    requires 0 < g.page <= g.erase && 0 < n && Walk(g, start, n).end.Some?
    ensures var t := Walk(g, start, n);
      |t.pages| == PagesFor(g.page, n) > 0 && t.end.value == t.pages[|t.pages| - 1] + g.page
    decreases g.size - start
  {
    if start % g.erase == 0 && start / g.erase in g.bad {
      WalkEndsBehind(g, start + g.erase, n);
    } else if n > g.page {
      WalkEndsBehind(g, start + g.page, n - g.page);
    }
  }

  // Where each byte of the data is, and that the rest of the last page is erased.
  lemma {:induction false} StoredAt(g: Geometry, cells: Data, start: nat, pages: seq<nat>, data: Data, i: nat, o: nat)
    requires Apart(g, start, pages) && |cells| == g.size && Inside(pages, g.page, g.size)
    requires i < |pages| && o < g.page
    ensures Stored(cells, g.page, pages, data)[pages[i] + o]
      == if i * g.page + o < |data| then data[i * g.page + o] else 255
    decreases |pages|
  {
    hide Laid, Stored;
    var at, m := pages[0], Min(|data|, g.page);
    var next, left := Laid(cells, g.page, at, data), data[m..];
    assert pages == [at] + pages[1..];
    StoredTakes(cells, g.page, at, pages[1..], data);
    if i == 0 {
      StoredKeepsBelow(g, next, at + g.page, pages[1..], left);
      var s := Stored(next, g.page, pages[1..], left);
      assert s[at + o] == s[..at + g.page][at + o] == next[..at + g.page][at + o];
      LaidAt(cells, g.page, at, data, o);
    } else {
      StoredAt(g, next, at + g.page, pages[1..], left, i - 1, o);
      OneMorePage(i - 1, g.page);
      var q := (i - 1) * g.page + o;
      assert q + g.page == i * g.page + o && q >= 0 by { ProductIsNat(i - 1, g.page); }
      assert |data| >= g.page ==> q < |left| ==> left[q] == data[q + g.page];
    }
  }

  lemma ProductIsNat(a: nat, b: nat)
    ensures 0 <= a * b
  {
  }

  lemma LaidAt(cells: Data, page: nat, at: nat, data: Data, o: nat)
    requires at + page <= |cells| && o < page
    ensures Laid(cells, page, at, data)[at + o] == if o < |data| then data[o] else 255
  {
  }

  // Pages that a walk can use before the end of the device.
  function Room(g: Geometry, start: nat): nat
    requires 0 < g.page <= g.erase
    decreases g.size - start
  {
    if start >= g.size then 0
    else if start % g.erase == 0 && start / g.erase in g.bad then Room(g, start + g.erase)
    else 1 + Room(g, start + g.page)
  }

  lemma {:induction false} FitsExactly(g: Geometry, start: nat, n: nat)
    requires 0 < g.page <= g.erase
    ensures Walk(g, start, n).end.Some? <==> PagesFor(g.page, n) <= Room(g, start)
    decreases g.size - start
  {
    if n != 0 && start < g.size {
      if start % g.erase == 0 && start / g.erase in g.bad {
        FitsExactly(g, start + g.erase, n);
      } else {
        FitsExactly(g, start + g.page, n - Min(n, g.page));
      }
    }
  }

  // ---------- Bad blocks ----------

  predicate Good(g: Geometry, pages: seq<nat>)
    requires 0 < g.erase
  {
    forall i | 0 <= i < |pages| :: pages[i] / g.erase !in g.bad
  }

  // The next page is on a block boundary or still in the same block.
  lemma SameBlock(g: Geometry, start: nat)
    requires g.Valid() && start % g.page == 0
    ensures (start + g.page) % g.erase == 0 || (start + g.page) / g.erase == start / g.erase
  {
    var b, r := start / g.erase, start % g.erase;
    assert start == g.erase * b + r;
    MultipleOfMultiple(g.erase, g.page, b);
    MultipleTakesAway(start, g.erase * b, g.page);
    MultipleGap(r, g.erase, g.page);
    if r + g.page == g.erase {
      assert start + g.page == g.erase * (b + 1);
      DivMod(start + g.page, g.erase, b + 1, 0);
    } else {
      DivMod(start + g.page, g.erase, b, r + g.page);
    }
  }

  lemma MultipleOfMultiple(x: nat, d: nat, k: nat)
    requires 0 < d && x % d == 0
    ensures (x * k) % d == 0
  {
    var a := x / d;
    assert x == d * a;
    assert x * k == d * (a * k);
    DivMod(x * k, d, a * k, 0);
  }

  lemma TimesDifference(d: nat, a: nat, b: nat)
    ensures d * (a - b) == d * a - d * b
  {
  }

  lemma MultipleTakesAway(x: nat, y: nat, d: nat)
    requires 0 < d && x % d == 0 && y % d == 0 && y <= x
    ensures (x - y) % d == 0
  {
    var a, b := x / d, y / d;
    assert x == d * a && y == d * b;
    QuotientBelow(d, a, 0, b, 0);
    TimesDifference(d, a, b);
    DivMod(x - y, d, a - b, 0);
  }

  lemma {:induction false} WalkIsGood(g: Geometry, start: nat, n: nat)
    requires g.Valid() && start % g.page == 0
    requires start % g.erase == 0 || start / g.erase !in g.bad
    ensures Good(g, Walk(g, start, n).pages)
    decreases g.size - start
  {
    if n != 0 && start < g.size {
      if start % g.erase == 0 && start / g.erase in g.bad {
        MultipleAdds(start, g.erase, g.page);
        MultipleAdds(start, g.erase, g.erase);
        WalkIsGood(g, start + g.erase, n);
      } else {
        SameBlock(g, start);
        MultipleAdds(start, g.page, g.page);
        WalkIsGood(g, start + g.page, n - Min(n, g.page));
      }
    }
  }

  // From a boundary or a good block, every good page up to the last one used is used: with WalkIsGood
  // the pages are the first good ones, in order.
  lemma {:induction false} WalkTakesEvery(g: Geometry, start: nat, n: nat, q: nat)
    requires g.Valid() && start % g.page == 0
    requires start % g.erase == 0 || start / g.erase !in g.bad
    requires q % g.page == 0 && start <= q && q / g.erase !in g.bad
    requires var pages := Walk(g, start, n).pages; pages != [] && q <= pages[|pages| - 1]
    ensures q in Walk(g, start, n).pages
    decreases g.size - start
  {
    var t := Walk(g, start, n);
    if start % g.erase == 0 && start / g.erase in g.bad {
      MultipleAdds(start, g.erase, g.page);
      MultipleAdds(start, g.erase, g.erase);
      if q < start + g.erase {
        InBlock(g, start, q);
      }
      WalkTakesEvery(g, start + g.erase, n, q);
    } else if q != start {
      MultipleGap(start, q, g.page);
      SameBlock(g, start);
      MultipleAdds(start, g.page, g.page);
      var rest := Walk(g, start + g.page, n - Min(n, g.page)).pages;
      assert t.pages == [start] + rest;
      assert rest != [] by {
        assert t.pages[|t.pages| - 1] != start;
      }
      WalkTakesEvery(g, start + g.page, n - Min(n, g.page), q);
    }
  }

  lemma InBlock(g: Geometry, start: nat, q: nat)
    requires 0 < g.erase && start % g.erase == 0 && start <= q < start + g.erase
    ensures q / g.erase == start / g.erase
  {
    DivMod(q, g.erase, start / g.erase, q - start);
  }

  // No bad block is touched exactly when the start is on a boundary or in a good block.
  lemma GoodExactly(g: Geometry, start: nat, n: nat)
    requires g.Valid() && start % g.page == 0 && start < g.size && 0 < n
    ensures Good(g, Walk(g, start, n).pages) <==> start % g.erase == 0 || start / g.erase !in g.bad
  {
    if start % g.erase == 0 || start / g.erase !in g.bad {
      WalkIsGood(g, start, n);
    } else {
      assert Walk(g, start, n).pages[0] == start;
    }
  }

  // ---------- mtd_write and mtd_read ----------

  datatype Result = Next(pos: nat) | Invalid | DeviceError

  predicate Refused(g: Geometry, start: nat, n: nat)
    requires 0 < g.page
  {
    n == 0 || start % g.page != 0 || start >= g.size
  }

  lemma WalkSkips(g: Geometry, pos: nat, n: nat)
    requires 0 < g.page <= g.erase && 0 < n && pos < g.size && pos % g.erase == 0 && pos / g.erase in g.bad
    ensures Walk(g, pos, n) == Walk(g, pos + g.erase, n)
  {
  }

  lemma WalkFails(g: Geometry, n: nat)
    requires 0 < g.page <= g.erase && 0 < n
    ensures Walk(g, g.size, n) == Trace([], None)
  {
  }

  lemma WalkEnds(g: Geometry, pos: nat)
    requires 0 < g.page <= g.erase
    ensures Walk(g, pos, 0) == Trace([], Some(pos))
  {
  }

  lemma WalkTakes(g: Geometry, pos: nat, n: nat)
    requires 0 < g.page <= g.erase && 0 < n && pos < g.size && (pos % g.erase == 0 ==> pos / g.erase !in g.bad)
    ensures var t, rest := Walk(g, pos, n), Walk(g, pos + g.page, n - Min(n, g.page));
      && t == Trace([pos] + rest.pages, rest.end)
      && (Inside(t.pages, g.page, g.size) ==> Inside(rest.pages, g.page, g.size))
  {
    var t, rest := Walk(g, pos, n), Walk(g, pos + g.page, n - Min(n, g.page));
    assert t == Trace([pos] + rest.pages, rest.end);
    assert forall i | 0 <= i < |rest.pages| :: rest.pages[i] == t.pages[i + 1];
  }

  // ---------- One loop pass ----------

  // What is still to be written and what was written make up the whole.
  ghost predicate Writing(g: Geometry, cells: Data, pos: nat, left: Data, touched: seq<nat>, was: Data, d: Data,
                          all: Trace, before: seq<nat>)
    requires g.Valid() && |cells| == g.size && |was| == g.size
  {
    var t := Walk(g, pos, |left|);
    && Inside(all.pages, g.page, g.size) && Inside(t.pages, g.page, g.size)
    && t.end == all.end && touched + t.pages == before + all.pages
    && Stored(cells, g.page, t.pages, left) == Stored(was, g.page, all.pages, d)
  }

  lemma WritingStarts(g: Geometry, cells: Data, pos: nat, d: Data, touched: seq<nat>)
    requires g.Valid() && |cells| == g.size && Inside(Walk(g, pos, |d|).pages, g.page, g.size)
    ensures Writing(g, cells, pos, d, touched, cells, d, Walk(g, pos, |d|), touched)
  {
  }

  lemma WritingGoesOn(g: Geometry, cells: Data, pos: nat, left: Data, touched: seq<nat>, was: Data, d: Data,
                      all: Trace, before: seq<nat>)
    requires g.Valid() && |cells| == g.size && |was| == g.size && left != [] && pos + g.page <= g.size
    requires pos % g.erase == 0 ==> pos / g.erase !in g.bad
    requires Writing(g, cells, pos, left, touched, was, d, all, before)
    ensures Writing(g, Laid(cells, g.page, pos, left), pos + g.page, left[Min(|left|, g.page)..], touched + [pos],
                    was, d, all, before)
  {
    hide Walk, Stored, Laid;
    var rest := Walk(g, pos + g.page, |left| - Min(|left|, g.page));
    WalkTakes(g, pos, |left|);
    StoredTakes(cells, g.page, pos, rest.pages, left);
    assert touched + ([pos] + rest.pages) == (touched + [pos]) + rest.pages;
  }

  lemma WritingSkips(g: Geometry, cells: Data, pos: nat, left: Data, touched: seq<nat>, was: Data, d: Data,
                     all: Trace, before: seq<nat>)
    requires g.Valid() && |cells| == g.size && |was| == g.size && left != [] && pos < g.size
    requires pos % g.erase == 0 && pos / g.erase in g.bad
    requires Writing(g, cells, pos, left, touched, was, d, all, before)
    ensures Writing(g, cells, pos + g.erase, left, touched, was, d, all, before)
  {
    hide Walk, Stored;
    WalkSkips(g, pos, |left|);
  }

  lemma WritingEnds(g: Geometry, cells: Data, pos: nat, left: Data, touched: seq<nat>, was: Data, d: Data,
                    all: Trace, before: seq<nat>)
    requires g.Valid() && |cells| == g.size && |was| == g.size && (left == [] || pos == g.size)
    requires Writing(g, cells, pos, left, touched, was, d, all, before)
    ensures touched == before + all.pages && Inside(all.pages, g.page, g.size)
    ensures cells == Stored(was, g.page, all.pages, d)
    ensures all.end == if left == [] then Some(pos) else None
  {
    hide Walk;
    if left == [] {
      WalkEnds(g, pos);
    } else {
      WalkFails(g, |left|);
    }
  }

  // What was read and what the walk still gives make up the whole.
  ghost predicate Reading(g: Geometry, cells: Data, pos: nat, size: nat, data: Data, touched: seq<nat>,
                          all: Trace, total: nat, before: seq<nat>)
    requires g.Valid() && |cells| == g.size
  {
    var t := Walk(g, if size == 0 then pos + Padding(g.page, total) else pos, size);
    && Inside(all.pages, g.page, g.size) && Inside(t.pages, g.page, g.size)
    && t.end == all.end && touched + t.pages == before + all.pages
    && data + Fetched(cells, g.page, t.pages, size) == Fetched(cells, g.page, all.pages, total)
    && (size > 0 ==> Padding(g.page, size) == Padding(g.page, total))
  }

  lemma ReadingStarts(g: Geometry, cells: Data, pos: nat, size: nat, touched: seq<nat>)
    requires g.Valid() && |cells| == g.size && 0 < size && Inside(Walk(g, pos, size).pages, g.page, g.size)
    ensures Reading(g, cells, pos, size, [], touched, Walk(g, pos, size), size, touched)
  {
    hide Walk;
  }

  lemma ReadingGoesOn(g: Geometry, cells: Data, pos: nat, size: nat, data: Data, touched: seq<nat>,
                      all: Trace, total: nat, before: seq<nat>)
    requires g.Valid() && |cells| == g.size && 0 < size && pos + g.page <= g.size
    requires pos % g.erase == 0 ==> pos / g.erase !in g.bad
    requires Reading(g, cells, pos, size, data, touched, all, total, before)
    ensures var m := Min(g.page, size);
      Reading(g, cells, pos + m, size - m, data + cells[pos..pos + m], touched + [pos], all, total, before)
  {
    hide Walk, Fetched, Padding;
    var m := Min(size, g.page);
    var rest := Walk(g, pos + g.page, size - m);
    WalkTakes(g, pos, size);
    FetchedTakes(cells, g.page, pos, rest.pages, size);
    PaddingTakes(g.page, size);
    assert touched + ([pos] + rest.pages) == (touched + [pos]) + rest.pages;
    var more := Fetched(cells, g.page, rest.pages, size - m);
    assert data + (cells[pos..pos + m] + more) == (data + cells[pos..pos + m]) + more;
  }

  lemma PaddingTakes(page: nat, n: nat)
    requires 0 < page && 0 < n
    ensures Padding(page, n) == if n <= page then page - n else Padding(page, n - page)
  {
  }

  lemma ReadingSkips(g: Geometry, cells: Data, pos: nat, size: nat, data: Data, touched: seq<nat>,
                     all: Trace, total: nat, before: seq<nat>)
    requires g.Valid() && |cells| == g.size && 0 < size && pos < g.size
    requires pos % g.erase == 0 && pos / g.erase in g.bad
    requires Reading(g, cells, pos, size, data, touched, all, total, before)
    ensures Reading(g, cells, pos + g.erase, size, data, touched, all, total, before)
  {
    hide Walk, Fetched, Padding;
    WalkSkips(g, pos, size);
  }

  lemma ReadingEnds(g: Geometry, cells: Data, pos: nat, size: nat, data: Data, touched: seq<nat>,
                    all: Trace, total: nat, before: seq<nat>)
    requires g.Valid() && |cells| == g.size && (size == 0 || pos == g.size)
    requires Reading(g, cells, pos, size, data, touched, all, total, before)
    ensures data == Fetched(cells, g.page, all.pages, total) && touched == before + all.pages
    ensures Inside(all.pages, g.page, g.size)
    ensures all.end == if size == 0 then Some(pos + Padding(g.page, total)) else None
  {
    hide Walk, Padding;
    if size == 0 {
      WalkEnds(g, pos + Padding(g.page, total));
    } else {
      WalkFails(g, size);
    }
  }

  class Device {
    const g: Geometry
    var cells: Data
    // The start of every page written or read.
    ghost var touched: seq<nat>

    ghost predicate Valid()
      reads this
    {
      g.Valid() && |cells| == g.size
    }

    constructor (g: Geometry, cells: Data)
      requires g.Valid() && |cells| == g.size
      ensures Valid() && this.g == g && this.cells == cells && touched == []
    {
      this.g, this.cells, touched := g, cells, [];
    }

    // write of one page at the file position.
    method WritePage(at: nat, data: Data)
      requires Valid() && at + g.page <= g.size && |data| == g.page
      modifies this
      ensures Valid() && cells == Laid(old(cells), g.page, at, data) && touched == old(touched) + [at]
    {
      assert data[..g.page] + Blank(0) == data;
      cells := cells[..at] + data + cells[at + g.page..];
      touched := touched + [at];
    }

    // The next page of the data, filled up when the data ends in it.
    method NextPage(pos: nat, data: Data) returns (left: Data)
      requires Valid() && pos + g.page <= g.size
      modifies this
      ensures Valid() && cells == Laid(old(cells), g.page, pos, data) && touched == old(touched) + [pos]
      ensures left == data[Min(|data|, g.page)..]
    {
      hide Laid;
      if |data| < g.page {
        PaddedPage(cells, g.page, pos, data);
        WritePage(pos, data + Blank(g.page - |data|));
        left := [];
      } else {
        FullPage(cells, g.page, pos, data);
        WritePage(pos, data[..g.page]);
        left := data[g.page..];
      }
    }

    // mtd_write on NAND.
    method Write(start: nat, data: Data) returns (r: Result)
      requires Valid()
      modifies this
      ensures Valid()
      ensures Refused(g, start, |data|) ==> r == Invalid && cells == old(cells)
      ensures !Refused(g, start, |data|) ==>
        var d := if start + |data| <= g.size then data else data[..g.size - start];
        var t := Walk(g, start, |d|);
        && Inside(t.pages, g.page, g.size) && cells == Stored(old(cells), g.page, t.pages, d)
        && r == (if t.end.Some? then Next(t.end.value) else DeviceError)
        && touched == old(touched) + t.pages
    {
      hide Laid, Apart, Walk, Stored, Writing;
      if |data| == 0 || start % g.page != 0 || start >= g.size {
        return Invalid;
      }
      var rest := data;
      if start + |rest| > g.size {
        rest := rest[..g.size - start];
      }
      ghost var d := rest;
      ghost var all := Walk(g, start, |d|);
      WalkIsApart(g, start, |d|);
      var pos := start;
      assert Writing(g, cells, pos, rest, touched, old(cells), d, all, old(touched)) by {
        WritingStarts(g, cells, pos, d, touched);
      }
      while |rest| > 0
        invariant Valid() && pos <= g.size && pos % g.page == 0
        invariant Writing(g, cells, pos, rest, touched, old(cells), d, all, old(touched))
        decreases g.size - pos
      {
        if pos % g.erase == 0 {
          if pos >= g.size {
            WritingEnds(g, cells, pos, rest, touched, old(cells), d, all, old(touched));
            return DeviceError;
          }
          if pos / g.erase in g.bad {
            WritingSkips(g, cells, pos, rest, touched, old(cells), d, all, old(touched));
            MultipleAdds(pos, g.erase, g.page);
            MultipleGap(pos, g.size, g.erase);
            pos := pos + g.erase;
            continue;
          }
        }
        BeforeEnd(g, pos);
        MultipleAdds(pos, g.page, g.page);
        WritingGoesOn(g, cells, pos, rest, touched, old(cells), d, all, old(touched));
        rest := NextPage(pos, rest);
        pos := pos + g.page;
      }
      WritingEnds(g, cells, pos, rest, touched, old(cells), d, all, old(touched));
      r := Next(pos);
    }

    // mtd_read on NAND.
    method Read(start: nat, n: nat) returns (r: Result, data: Data)
      requires Valid()
      modifies this`touched
      ensures Refused(g, start, n) ==> r == Invalid && data == []
      ensures !Refused(g, start, n) ==>
        var size := if start + n <= g.size then n else g.size - start;
        var t := Walk(g, start, size);
        && Inside(t.pages, g.page, g.size) && data == Fetched(cells, g.page, t.pages, size)
        && (t.end.None? ==> r == DeviceError)
        && (t.end.Some? ==> r.Next? && r.pos + Padding(g.page, size) == t.end.value)
        && touched == old(touched) + t.pages
    {
      hide Walk, Fetched, Padding;
      if n == 0 || start % g.page != 0 || start >= g.size {
        return Invalid, [];
      }
      if start + n > g.size {
        r, data := ReadPages(start, g.size - start);
      } else {
        r, data := ReadPages(start, n);
      }
    }

    // The loop of mtd_read.
    method ReadPages(start: nat, total: nat) returns (r: Result, data: Data)
      requires Valid() && !Refused(g, start, total)
      modifies this`touched
      ensures var t := Walk(g, start, total);
        && Inside(t.pages, g.page, g.size) && data == Fetched(cells, g.page, t.pages, total)
        && (t.end.None? ==> r == DeviceError)
        && (t.end.Some? ==> r.Next? && r.pos + Padding(g.page, total) == t.end.value)
        && touched == old(touched) + t.pages
    {
      hide Apart, Walk, Fetched, Padding, Reading;
      data := [];
      var size := total;
      ghost var all := Walk(g, start, total);
      WalkIsApart(g, start, size);
      ReadingStarts(g, cells, start, size, touched);
      var pos := start;
      while size > 0
        invariant pos <= g.size && (size > 0 ==> pos % g.page == 0)
        invariant Reading(g, cells, pos, size, data, touched, all, total, old(touched))
        decreases g.size - pos, size
      {
        if pos % g.erase == 0 {
          if pos >= g.size {
            ReadingEnds(g, cells, pos, size, data, touched, all, total, old(touched));
            return DeviceError, data;
          }
          if pos / g.erase in g.bad {
            ReadingSkips(g, cells, pos, size, data, touched, all, total, old(touched));
            MultipleAdds(pos, g.erase, g.page);
            MultipleGap(pos, g.size, g.erase);
            pos := pos + g.erase;
            continue;
          }
        }
        BeforeEnd(g, pos);
        if g.page <= size {
          MultipleAdds(pos, g.page, g.page);
        }
        var rrel := Min(g.page, size);
        ReadingGoesOn(g, cells, pos, size, data, touched, all, total, old(touched));
        data := data + cells[pos..pos + rrel];
        touched := touched + [pos];
        pos := pos + rrel;
        size := size - rrel;
      }
      ReadingEnds(g, cells, pos, size, data, touched, all, total, old(touched));
      r := Next(pos);
    }
  }

  // Off a block boundary a page still fits before the end of the device.
  lemma BeforeEnd(g: Geometry, pos: nat)
    requires g.Valid() && pos % g.page == 0 && pos <= g.size && (pos % g.erase == 0 ==> pos < g.size)
    ensures pos + g.page <= g.size
  {
    MultipleGap(pos, g.size, g.page);
  }

  lemma PaddedPage(cells: Data, page: nat, at: nat, data: Data)
    requires at + page <= |cells| && |data| < page
    ensures Laid(cells, page, at, data + Blank(page - |data|)) == Laid(cells, page, at, data)
  {
    var padded := data + Blank(page - |data|);
    assert padded[..page] + Blank(0) == data[..|data|] + Blank(page - |data|);
  }

  lemma FullPage(cells: Data, page: nat, at: nat, data: Data)
    requires at + page <= |cells| && page <= |data|
    ensures Laid(cells, page, at, data[..page]) == Laid(cells, page, at, data)
  {
    assert data[..page][..page] == data[..page];
  }

  // mtd_read of the same start and size gives back what mtd_write stored: all of it, or what lies
  // before the end of the device.
  method WriteThenRead(dev: Device, start: nat, data: Data) returns (w: Result, r: Result, back: Data)
    requires dev.Valid()
    modifies dev
    ensures w.Next? <==>
      && data != [] && start % dev.g.page == 0 && start < dev.g.size
      && PagesFor(dev.g.page, if start + |data| <= dev.g.size then |data| else dev.g.size - start) <= Room(dev.g, start)
    ensures w.Next? && start + |data| <= dev.g.size ==> back == data
    ensures w.Next? && start + |data| > dev.g.size ==> back == data[..dev.g.size - start]
    ensures w.Next? ==> r.Next? && r.pos + Padding(dev.g.page, |back|) == w.pos
  {
    hide Walk, Stored, Fetched, Room, PagesFor, Padding;
    w := dev.Write(start, data);
    if !Refused(dev.g, start, |data|) {
      ghost var d := if start + |data| <= dev.g.size then data else data[..dev.g.size - start];
      FitsExactly(dev.g, start, |d|);
      if w.Next? {
        FetchedStored(dev.g, old(dev.cells), start, d);
      }
    }
    r, back := dev.Read(start, |data|);
  }
}
