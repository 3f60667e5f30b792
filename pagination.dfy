/**
 * The page-number control (src/components/Pagination.tsx): the windowed list of page
 * buttons and what the previous, next and numbered buttons do.
 */
module Pagination {
  import opened Wrappers

  datatype PageItem = Num(n: int) | Ellipsis

  const MaxPagesToShow := 5

  function Max(a: int, b: int): int { if a < b then b else a }
  function Min(a: int, b: int): int { if a < b then a else b }

  /** The buttons `lo`, `lo + 1`, ..., `hi`; none when `hi < lo`. */
  function Range(lo: int, hi: int): (r: seq<PageItem>)
    ensures |r| == if hi < lo then 0 else hi - lo + 1
    ensures forall k :: 0 <= k < |r| ==> r[k] == Num(lo + k)
    decreases hi - lo
  {
    if hi < lo then [] else Range(lo, hi - 1) + [Num(hi)]
  }

  /**
   * The list `getPageNumbers` builds: all pages when there are at most five; otherwise the
   * first page, an ellipsis when the current page is past 3, the pages next to the current
   * one (kept strictly between first and last), an ellipsis when the current page is before
   * the third-to-last, and the last page.
   */
  function Window(cur: int, total: int): seq<PageItem> {
    if total <= MaxPagesToShow then Range(1, total)
    else
      [Num(1)] + (if cur > 3 then [Ellipsis] else []) +
      Range(Max(2, cur - 1), Min(total - 1, cur + 1)) +
      (if cur < total - 2 then [Ellipsis] else []) +
      (if total > 1 then [Num(total)] else [])
  }

  /** `getPageNumbers`, with its pushes and its two loops. */
  method PageNumbers(cur: int, total: int) returns (pages: seq<PageItem>)
    ensures pages == Window(cur, total)
  {
    pages := [];
    if total <= MaxPagesToShow {
      var i := 1;
      while i <= total
        invariant 1 <= i <= Max(total + 1, 1)
        invariant pages == Range(1, i - 1)
      {
        pages := pages + [Num(i)];
        i := i + 1;
      }
      assert i == Max(total + 1, 1);
      return;
    }
    pages := pages + [Num(1)];
    if cur > 3 {
      pages := pages + [Ellipsis];
    }
    assert pages == [Num(1)] + (if cur > 3 then [Ellipsis] else []);
    var start := Max(2, cur - 1);
    var end := Min(total - 1, cur + 1);
    ghost var before := pages;
    var i := start;
    while i <= end
      invariant start <= i <= Max(end + 1, start)
      invariant pages == before + Range(start, i - 1)
    {
      pages := pages + [Num(i)];
      i := i + 1;
    }
    assert pages == before + Range(start, end);
    if cur < total - 2 {
      pages := pages + [Ellipsis];
    }
    if total > 1 {
      pages := pages + [Num(total)];
    }
  }

  /** The page numbers among the buttons, in order. */
  function Numbers(items: seq<PageItem>): seq<int> {
    if items == [] then []
    else (if items[0].Num? then [items[0].n] else []) + Numbers(items[1..])
  }

  function EllipsisCount(items: seq<PageItem>): nat {
    if items == [] then 0 else (if items[0].Ellipsis? then 1 else 0) + EllipsisCount(items[1..])
  }

  lemma {:induction false} NumbersConcat(a: seq<PageItem>, b: seq<PageItem>)
    ensures Numbers(a + b) == Numbers(a) + Numbers(b)
    ensures EllipsisCount(a + b) == EllipsisCount(a) + EllipsisCount(b)
  {
    if a == [] {
      assert a + b == b;
    } else {
      assert (a + b)[0] == a[0] && (a + b)[1..] == a[1..] + b;
      NumbersConcat(a[1..], b);
    }
  }

  lemma {:induction false} RangeNumbers(lo: int, hi: int)
    ensures Numbers(Range(lo, hi)) == seq(if hi < lo then 0 else hi - lo + 1, k => lo + k)
    ensures EllipsisCount(Range(lo, hi)) == 0
    decreases hi - lo
  {
    if hi >= lo {
      RangeNumbers(lo, hi - 1);
      NumbersConcat(Range(lo, hi - 1), [Num(hi)]);
      assert Numbers([Num(hi)]) == [hi] by { assert [Num(hi)][1..] == []; }
      assert EllipsisCount([Num(hi)]) == 0 by { assert [Num(hi)][1..] == []; }
    }
  }

  predicate StrictlyIncreasing(s: seq<int>) {
    forall i, j :: 0 <= i < j < |s| ==> s[i] < s[j]
  }

  lemma NumbersOne(x: PageItem)
    ensures Numbers([x]) == if x.Num? then [x.n] else []
    ensures EllipsisCount([x]) == if x.Ellipsis? then 1 else 0
  {
    assert [x][1..] == [];
  }

  /** The page numbers of the window: 1, the middle pages, the last page. */
  lemma WindowNumbers(cur: int, total: int)
    requires total > MaxPagesToShow
    ensures var lo, hi := Max(2, cur - 1), Min(total - 1, cur + 1);
      Numbers(Window(cur, total)) == [1] + seq(if hi < lo then 0 else hi - lo + 1, k => lo + k) + [total]
    ensures EllipsisCount(Window(cur, total)) == (if cur > 3 then 1 else 0) + (if cur < total - 2 then 1 else 0)
  {
    var lead := if cur > 3 then [Ellipsis] else [];
    var trail := if cur < total - 2 then [Ellipsis] else [];
    var mid := Range(Max(2, cur - 1), Min(total - 1, cur + 1));
    RangeNumbers(Max(2, cur - 1), Min(total - 1, cur + 1));
    NumbersOne(Num(1));
    NumbersOne(Num(total));
    NumbersOne(Ellipsis);
    assert Numbers(lead) == [] && Numbers(trail) == [];
    NumbersConcat([Num(1)], lead);
    NumbersConcat([Num(1)] + lead, mid);
    NumbersConcat([Num(1)] + lead + mid, trail);
    NumbersConcat([Num(1)] + lead + mid + trail, [Num(total)]);
  }

  /**
   * The window's shape: its page numbers rise strictly and lie between 1 and the last page,
   * and it holds at most seven buttons; with more than five pages it starts at page 1, ends
   * at the last page, and has one ellipsis for each side whose condition holds; with at
   * most five it is every page and no ellipsis.
   */
  lemma WindowShape(cur: int, total: int)
    ensures var w := Window(cur, total);
      StrictlyIncreasing(Numbers(w)) &&
      (forall k :: 0 <= k < |Numbers(w)| ==> 1 <= Numbers(w)[k] <= total) &&
      |w| <= 7
    ensures total <= MaxPagesToShow ==> Numbers(Window(cur, total)) == seq(Max(total, 0), k => k + 1)
    ensures total <= MaxPagesToShow ==> EllipsisCount(Window(cur, total)) == 0
    ensures total > MaxPagesToShow ==>
      var w := Window(cur, total);
      w[0] == Num(1) && w[|w| - 1] == Num(total) &&
      EllipsisCount(w) == (if cur > 3 then 1 else 0) + (if cur < total - 2 then 1 else 0)
  {
    if total <= MaxPagesToShow {
      RangeNumbers(1, total);
    } else {
      WindowNumbers(cur, total);
      var lo, hi := Max(2, cur - 1), Min(total - 1, cur + 1);
      var m := seq(if hi < lo then 0 else hi - lo + 1, k => lo + k);
      var ns := [1] + m + [total];
      assert Numbers(Window(cur, total)) == ns;
      forall i, j | 0 <= i < j < |ns| ensures ns[i] < ns[j] {
        if 0 < i { assert ns[i] == m[i - 1]; }
        if j < |ns| - 1 { assert ns[j] == m[j - 1]; }
      }
      forall k | 0 <= k < |ns| ensures 1 <= ns[k] <= total {
        if 0 < k < |ns| - 1 { assert ns[k] == m[k - 1]; }
      }
    }
  }

  /**
   * Where the ellipses sit, for a current page within range: the second button is an
   * ellipsis exactly when the current page is past 3, the second-to-last exactly when it
   * is before the third-to-last page.
   */
  lemma EllipsisPlacement(cur: int, total: int)
    requires total > MaxPagesToShow && 1 <= cur <= total
    ensures var w := Window(cur, total);
      |w| >= 3 && (w[1] == Ellipsis <==> cur > 3) && (w[|w| - 2] == Ellipsis <==> cur < total - 2)
  {
  }

  /** The current page, when within range, is always among the buttons. */
  lemma CurrentPageShown(cur: int, total: int)
    requires 1 <= cur <= total
    ensures Num(cur) in Window(cur, total)
  {
    var w := Window(cur, total);
    if total <= MaxPagesToShow {
      assert w[cur - 1] == Num(cur);
    } else if cur == 1 {
      assert w[0] == Num(1);
    } else if cur == total {
      assert w[|w| - 1] == Num(total);
    } else {
      var lo := Max(2, cur - 1);
      var mid := Range(lo, Min(total - 1, cur + 1));
      assert mid[cur - lo] == Num(cur);
      var lead := if cur > 3 then [Ellipsis] else [];
      assert w == [Num(1)] + lead + mid + (if cur < total - 2 then [Ellipsis] else []) + [Num(total)];
      assert w[1 + |lead| + (cur - lo)] == Num(cur);
    }
  }

  /** Previous: disabled on page 1, otherwise goes one page back. */
  function Previous(cur: int): (target: Option<int>)
    ensures target.None? <==> cur == 1
    ensures target.Some? ==> target.value == cur - 1
  {
    if cur == 1 then None else Some(cur - 1)
  }

  /** Next: disabled on the last page, otherwise goes one page on. */
  function Next(cur: int, total: int): (target: Option<int>)
    ensures target.None? <==> cur == total
    ensures target.Some? ==> target.value == cur + 1
  {
    if cur == total then None else Some(cur + 1)
  }

  /** A numbered button goes to its page; an ellipsis is disabled. */
  function Click(item: PageItem): (target: Option<int>)
    ensures target.None? <==> item == Ellipsis
    ensures item.Num? ==> target == Some(item.n)
  {
    if item.Num? then Some(item.n) else None
  }

  /** The button of the current page is the highlighted one. */
  predicate IsActive(item: PageItem, cur: int) {
    item == Num(cur)
  }

  /** From a page within range, every enabled button leads to a page within range. */
  lemma NavigationStaysInRange(cur: int, total: int, item: PageItem)
    requires 1 <= cur <= total
    requires item in Window(cur, total)
    ensures Previous(cur).Some? ==> 1 <= Previous(cur).value <= total
    ensures Next(cur, total).Some? ==> 1 <= Next(cur, total).value <= total
    ensures Click(item).Some? ==> 1 <= Click(item).value <= total
  {
    WindowShape(cur, total);
    var w := Window(cur, total);
    if item.Num? {
      var k :| 0 <= k < |w| && w[k] == item;
      NumbersAt(w, k);
    }
  }

  lemma {:induction false} NumbersAt(items: seq<PageItem>, k: nat)
    requires k < |items| && items[k].Num?
    ensures items[k].n in Numbers(items)
  {
    if k > 0 {
      NumbersAt(items[1..], k - 1);
    }
  }
}
