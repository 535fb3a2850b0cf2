/** Client-side pagination as the Activity Log page (8 rows a page) and the
    Patient page (6 rows a page) compute it on every render:
    `items.slice(page * size - size, page * size)` and
    `Math.ceil(items.length / size)` pages. */
module Paging {
  import opened Wire

  /** `Array.prototype.slice(start, end)`: a negative index counts back from the
      end, both indices are clamped to the sequence, and an empty range gives []. */
  function JsSlice<T>(s: seq<T>, start: int, end: int): seq<T>
  {
    var n := |s|;
    var b := if start < 0 then Max(n + start, 0) else Min(start, n);
    var e := if end < 0 then Max(n + end, 0) else Min(end, n);
    if b < e then s[b..e] else []
  }

  /** The rows shown on page `page` (`indexOfLast = page * size`,
      `indexOfFirst = indexOfLast - size`). */
  function PageWindow<T>(items: seq<T>, page: int, size: nat): seq<T>
  {
    var last := page * size;
    JsSlice(items, last - size, last)
  }

  /** On any page from 1 on, the window is the block of `size` rows starting at
      `(page - 1) * size`, cut off at the end of the list: never more than
      `size` rows, and empty past the last page. */
  lemma PageWindowIsBlock<T>(items: seq<T>, page: int, size: nat)
    requires page >= 1
    ensures 0 <= Min((page - 1) * size, |items|) <= Min(page * size, |items|) <= |items|
    ensures PageWindow(items, page, size) == items[Min((page - 1) * size, |items|)..Min(page * size, |items|)]
    ensures |PageWindow(items, page, size)| <= size
    ensures (page - 1) * size >= |items| ==> PageWindow(items, page, size) == []
  {
    assert page * size - size == (page - 1) * size;
    assert (page - 1) * size >= 0 by { assert page - 1 >= 0; }
    assert page * size == (page - 1) * size + size;
  }

  /** `Math.ceil(n / size)` for a non-negative count and a positive page size. */
  function TotalPages(n: nat, size: nat): (r: nat)
    requires size > 0
    ensures r == 0 <==> n == 0
    ensures n <= r * size
    ensures n > 0 ==> (r - 1) * size < n
  {
    var q := (n + size - 1) / size;
    assert n + size - 1 == q * size + (n + size - 1) % size;
    assert (q - 1) * size == q * size - size;
    q
  }

  /** Pages 1 to k, concatenated. */
  function PagesUpTo<T>(items: seq<T>, size: nat, k: nat): seq<T>
  {
    if k == 0 then [] else PagesUpTo(items, size, k - 1) + PageWindow(items, k, size)
  }

  /** Pages 1 to k together are exactly the first k * size rows. */
  lemma {:induction false} PagesUpToIsPrefix<T>(items: seq<T>, size: nat, k: nat)
    ensures PagesUpTo(items, size, k) == items[..Min(k * size, |items|)]
  {
    if k == 0 {
    } else {
      PagesUpToIsPrefix(items, size, k - 1);
      PageWindowIsBlock(items, k, size);
      assert (k - 1) * size <= k * size by { assert k * size == (k - 1) * size + size; }
      var a, b := Min((k - 1) * size, |items|), Min(k * size, |items|);
      assert items[..a] + items[a..b] == items[..b];
    }
  }

  /** Pages 1 to totalPages together reproduce the whole list, in order. */
  lemma AllPagesReproduceList<T>(items: seq<T>, size: nat)
    requires size > 0
    ensures PagesUpTo(items, size, TotalPages(|items|, size)) == items
  {
    PagesUpToIsPrefix(items, size, TotalPages(|items|, size));
  }

  /** The page-number invariant the pages are meant to keep. */
  predicate InRange(page: int, totalPages: int)
  {
    1 <= page <= Max(1, totalPages)
  }

  /** `disabled={currentPage === 1}` on Previous. */
  predicate PrevDisabled(page: int)
  {
    page == 1
  }

  /** `disabled={currentPage === totalPages}` on Next. */
  predicate NextDisabled(page: int, totalPages: int)
  {
    page == totalPages
  }

  /** `nextPage`: `if (currentPage < totalPages) setCurrentPage(currentPage + 1)`. */
  function GuardedNext(page: int, totalPages: int): (r: int)
    ensures page < totalPages ==> r == page + 1
    ensures page >= totalPages ==> r == page
    ensures InRange(page, totalPages) ==> InRange(r, totalPages)
  {
    if page < totalPages then page + 1 else page
  }

  /** `prevPage`: `if (currentPage > 1) setCurrentPage(currentPage - 1)`. */
  function GuardedPrev(page: int, totalPages: int): (r: int)
    ensures page > 1 ==> r == page - 1
    ensures page <= 1 ==> r == page
    ensures InRange(page, totalPages) ==> InRange(r, totalPages)
  {
    if page > 1 then page - 1 else page
  }

  datatype Click = NextClick | PrevClick

  /** A click on a pagination button: a disabled button does nothing, an
      enabled one runs the bounds-guarded handler. */
  function GuardedClick(page: int, totalPages: int, c: Click): int
  {
    match c
    case NextClick => if NextDisabled(page, totalPages) then page else GuardedNext(page, totalPages)
    case PrevClick => if PrevDisabled(page) then page else GuardedPrev(page, totalPages)
  }

  function GuardedRun(page: int, totalPages: int, clicks: seq<Click>): int
    decreases clicks
  {
    if clicks == [] then page else GuardedRun(GuardedClick(page, totalPages, clicks[0]), totalPages, clicks[1..])
  }

  /** From any page in range, every sequence of clicks stays in range. */
  lemma {:induction false} GuardedRunStaysInRange(page: int, totalPages: int, clicks: seq<Click>)
    requires InRange(page, totalPages)
    ensures InRange(GuardedRun(page, totalPages, clicks), totalPages)
    decreases clicks
  {
    if clicks != [] {
      GuardedRunStaysInRange(GuardedClick(page, totalPages, clicks[0]), totalPages, clicks[1..]);
    }
  }

  /** Bringing a page number back into range after the list changed: the
      nearest page of 1..max(1, totalPages). */
  function ClampPage(page: int, totalPages: int): (r: int)
    ensures InRange(r, totalPages)
    ensures InRange(page, totalPages) ==> r == page
    ensures page < 1 ==> r == 1
    ensures page > Max(1, totalPages) ==> r == Max(1, totalPages)
  {
    if page < 1 then 1 else if page > Max(1, totalPages) then Max(1, totalPages) else page
  }

  /** A list that shrank under the current page: clamping the page when the
      refetched list arrives and guarding the handlers keep every later
      sequence of clicks in range, from whatever page the user was on. */
  lemma ClampedThenGuardedStaysInRange(page: int, totalPages: int, clicks: seq<Click>)
    ensures InRange(GuardedRun(ClampPage(page, totalPages), totalPages, clicks), totalPages)
  {
    GuardedRunStaysInRange(ClampPage(page, totalPages), totalPages, clicks);
  }

  /** With an empty list Next stays enabled (1 is not 0 pages), yet its guarded
      handler leaves the page where it is. */
  lemma EmptyListNextEnabledButNoOp()
    ensures TotalPages(0, 8) == 0
    ensures !NextDisabled(1, TotalPages(0, 8))
    ensures GuardedClick(1, TotalPages(0, 8), NextClick) == 1
  {
  }
}
