/**
 * The dashboard's list view (src/app/dashboard/page.tsx): the filter chain, the comparator
 * that orders the filtered tasks, the page count and page slice, and the page state that
 * a fetch, a filter change or a page change updates. `now` is the time the derivation runs;
 * `format` stands for `format(d, "yyyy-MM-dd")`.
 */
module Dashboard {
  import opened Wrappers
  import opened Text
  import opened Seqs
  import opened Domain
  import opened TaskCard

  const ItemsPerPage := 8

  // ----- filters (lines 71-97) -----

  /**
   * The search box: an empty query keeps everything; otherwise the lower-cased title or
   * the lower-cased description, when there is one, must contain the lower-cased query.
   */
  predicate SearchOk(t: Task, query: string) {
    query == [] ||
    Contains(Lower(t.title), Lower(query)) ||
    (t.description.Some? && Contains(Lower(t.description.value), Lower(query)))
  }

  /** The status select; `None` is "all". */
  predicate StatusOk(t: Task, filter: Option<Status>) {
    filter.None? || t.status == filter.value
  }

  /** The priority select; `None` is "all". */
  predicate PriorityOk(t: Task, filter: Option<Priority>) {
    filter.None? || t.priority == filter.value
  }

  /** The due-date picker: same calendar day as the picked date; an undated task never matches. */
  predicate DueOk(t: Task, filter: Option<int>, format: int -> string) {
    filter.None? || (t.dueDate.Some? && format(t.dueDate.value) == format(filter.value))
  }

  /** The filters the view applies. */
  datatype Filters = Filters(search: string, status: Option<Status>, priority: Option<Priority>, due: Option<int>)

  const NoFilters := Filters("", None, None, None)

  predicate Keeps(t: Task, f: Filters, format: int -> string) {
    SearchOk(t, f.search) && StatusOk(t, f.status) && PriorityOk(t, f.priority) && DueOk(t, f.due, format)
  }

  // ----- the comparator (lines 99-119) -----

  /** `{ high: 0, medium: 1, low: 2 }` (the `?? 3` fallback cannot arise for a `Priority`). */
  function Rank(p: Priority): int {
    match p
    case High => 0
    case Medium => 1
    case Low => 2
  }

  /**
   * The comparator as written. When both tasks are dated it returns the difference of the
   * due dates, so `createdAt` only separates two undated tasks.
   */
  function Compare(a: Task, b: Task, now: int): int {
    var ao, bo := IsOverdue(a, now), IsOverdue(b, now);
    if ao && !bo then -1
    else if !ao && bo then 1
    else if Rank(a.priority) != Rank(b.priority) then Rank(a.priority) - Rank(b.priority)
    else if a.dueDate.Some? && b.dueDate.Some? then a.dueDate.value - b.dueDate.value
    else if a.dueDate.Some? then -1
    else if b.dueDate.Some? then 1
    else b.createdAt - a.createdAt
  }

  /**
   * A sort key whose lexicographic order is the comparator's: overdue, rank, undated,
   * due date, and newest first among undated tasks only.
   */
  function ViewKey(t: Task, now: int): seq<int> {
    [if IsOverdue(t, now) then 0 else 1,
     Rank(t.priority),
     if t.dueDate.Some? then 0 else 1,
     if t.dueDate.Some? then t.dueDate.value else 0,
     if t.dueDate.Some? then 0 else -t.createdAt]
  }

  lemma LexLe5(a: seq<int>, b: seq<int>)
    requires |a| == 5 && |b| == 5
    ensures LexLe(a, b) <==>
      a[0] < b[0] || (a[0] == b[0] && (a[1] < b[1] || (a[1] == b[1] && (a[2] < b[2] || (a[2] == b[2] &&
      (a[3] < b[3] || (a[3] == b[3] && a[4] <= b[4])))))))
  {
    LexLeUnfold(a, b);
    LexLeUnfold(a[1..], b[1..]);
    LexLeUnfold(a[2..], b[2..]);
    assert a[1..][1..] == a[2..] && b[1..][1..] == b[2..];
    LexLeUnfold(a[3..], b[3..]);
    assert a[2..][1..] == a[3..] && b[2..][1..] == b[3..];
    LexLeUnfold(a[4..], b[4..]);
    assert a[3..][1..] == a[4..] && b[3..][1..] == b[4..];
  }

  /**
   * The comparator is the key order: `Compare(a, b) <= 0` exactly when `a`'s key comes
   * first, and it is antisymmetric. It is therefore a consistent total preorder, the
   * condition under which `Array.prototype.sort` has a defined result.
   */
  lemma CompareAgreesWithKey(a: Task, b: Task, now: int)
    ensures Compare(a, b, now) <= 0 <==> LexLe(ViewKey(a, now), ViewKey(b, now))
    ensures Compare(a, b, now) < 0 <==> Compare(b, a, now) > 0
    ensures Compare(a, b, now) == 0 <==> Compare(b, a, now) == 0
  {
    LexLe5(ViewKey(a, now), ViewKey(b, now));
  }

  /** Two dated tasks of one class and rank due at the same instant tie, whatever their creation times. */
  lemma SameDueDateTies(a: Task, b: Task, now: int)
    requires a.dueDate.Some? && b.dueDate == a.dueDate
    requires IsOverdue(a, now) == IsOverdue(b, now) && a.priority == b.priority
    ensures Compare(a, b, now) == 0
  {
  }

  /**
   * What the key order says on two tasks: overdue before not overdue; within a class, higher
   * priority first; within a rank, dated before undated, earlier due date first, and for two
   * undated tasks the newer first.
   */
  lemma KeyOrder(a: Task, b: Task, now: int)
    requires LexLe(ViewKey(a, now), ViewKey(b, now))
    ensures IsOverdue(b, now) ==> IsOverdue(a, now)
    ensures IsOverdue(a, now) == IsOverdue(b, now) ==> Rank(a.priority) <= Rank(b.priority)
    ensures IsOverdue(a, now) == IsOverdue(b, now) && a.priority == b.priority ==>
      (b.dueDate.Some? ==> a.dueDate.Some?) &&
      (a.dueDate.Some? && b.dueDate.Some? ==> a.dueDate.value <= b.dueDate.value) &&
      (a.dueDate.None? && b.dueDate.None? ==> a.createdAt >= b.createdAt)
  {
    LexLe5(ViewKey(a, now), ViewKey(b, now));
  }

  // ----- the derived list (lines 68-122) -----

  function KeepsFn(f: Filters, format: int -> string): Task -> bool {
    t => Keeps(t, f, format)
  }

  function KeyFn(now: int): Task -> seq<int> {
    t => ViewKey(t, now)
  }

  /** The list the effect stores in `filteredTasks`. */
  function View(tasks: seq<Task>, f: Filters, now: int, format: int -> string): seq<Task> {
    SortByKey(Filter(tasks, KeepsFn(f, format)), KeyFn(now))
  }

  /**
   * The filter-and-sort effect: copy, narrow by each active filter in turn, then sort with
   * the comparator. The result is `View`: the kept tasks, each exactly as often as fetched,
   * in comparator order.
   */
  method DeriveView(tasks: seq<Task>, f: Filters, now: int, format: int -> string) returns (result: seq<Task>)
    ensures result == View(tasks, f, now, format)
    ensures forall t :: t in result <==> t in tasks && Keeps(t, f, format)
    ensures multiset(result) <= multiset(tasks)
    ensures forall i, j :: 0 <= i < j < |result| ==> Compare(result[i], result[j], now) <= 0
  {
    var bySearch := t => SearchOk(t, f.search);
    var byStatus := t => StatusOk(t, f.status);
    var byPriority := t => PriorityOk(t, f.priority);
    var byDue := t => DueOk(t, f.due, format);
    var s2 := t => SearchOk(t, f.search) && StatusOk(t, f.status);
    var s3 := t => SearchOk(t, f.search) && StatusOk(t, f.status) && PriorityOk(t, f.priority);
    var keeps := KeepsFn(f, format);
    result := tasks;
    if f.search != [] {
      result := Filter(result, bySearch);
    } else {
      FilterAll(tasks, bySearch);
    }
    if f.status.Some? {
      FilterCompose(tasks, bySearch, byStatus, s2);
      result := Filter(result, byStatus);
    } else {
      FilterExt(tasks, bySearch, s2);
    }
    if f.priority.Some? {
      FilterCompose(tasks, s2, byPriority, s3);
      result := Filter(result, byPriority);
    } else {
      FilterExt(tasks, s2, s3);
    }
    if f.due.Some? {
      FilterCompose(tasks, s3, byDue, keeps);
      result := Filter(result, byDue);
    } else {
      FilterExt(tasks, s3, keeps);
    }
    assert result == Filter(tasks, keeps);
    result := SortByKey(result, KeyFn(now));
    ViewContents(tasks, f, now, format);
  }

  /**
   * The view holds exactly the fetched tasks that pass the filters, none more often than
   * fetched, in comparator order.
   */
  lemma ViewContents(tasks: seq<Task>, f: Filters, now: int, format: int -> string)
    ensures var v := View(tasks, f, now, format);
      (forall t :: t in v <==> t in tasks && Keeps(t, f, format)) &&
      multiset(v) <= multiset(tasks) &&
      (forall i, j :: 0 <= i < j < |v| ==> Compare(v[i], v[j], now) <= 0)
  {
    var kept := Filter(tasks, KeepsFn(f, format));
    var v := SortByKey(kept, KeyFn(now));
    FilterSubMultiset(tasks, KeepsFn(f, format));
    forall t ensures t in v <==> t in kept {
      assert t in v <==> t in multiset(v);
      assert t in kept <==> t in multiset(kept);
    }
    SortedCompares(v, now);
  }

  /** A list sorted by the key is in comparator order. */
  lemma SortedCompares(r: seq<Task>, now: int)
    requires SortedBy(r, KeyFn(now))
    ensures forall i, j :: 0 <= i < j < |r| ==> Compare(r[i], r[j], now) <= 0
  {
    forall i, j | 0 <= i < j < |r| ensures Compare(r[i], r[j], now) <= 0 {
      CompareAgreesWithKey(r[i], r[j], now);
    }
  }

  /** In a derived view every overdue task precedes every task that is not overdue. */
  lemma OverdueFirst(tasks: seq<Task>, f: Filters, now: int, format: int -> string, i: int, j: int)
    requires 0 <= i < |View(tasks, f, now, format)| && 0 <= j < |View(tasks, f, now, format)|
    requires IsOverdue(View(tasks, f, now, format)[i], now) && !IsOverdue(View(tasks, f, now, format)[j], now)
    ensures i < j
  {
    var v := View(tasks, f, now, format);
    if j < i {
      KeyOrder(v[j], v[i], now);
    }
  }

  /** Within one overdue class of a derived view: rank, then dated first, then due date, then newest undated. */
  lemma ClassOrder(tasks: seq<Task>, f: Filters, now: int, format: int -> string, i: int, j: int)
    requires 0 <= i < j < |View(tasks, f, now, format)|
    ensures var a, b := View(tasks, f, now, format)[i], View(tasks, f, now, format)[j];
      IsOverdue(a, now) == IsOverdue(b, now) ==>
        Rank(a.priority) <= Rank(b.priority) &&
        (a.priority == b.priority ==>
          (b.dueDate.Some? ==> a.dueDate.Some?) &&
          (a.dueDate.Some? && b.dueDate.Some? ==> a.dueDate.value <= b.dueDate.value) &&
          (a.dueDate.None? && b.dueDate.None? ==> a.createdAt >= b.createdAt))
  {
    var v := View(tasks, f, now, format);
    KeyOrder(v[i], v[j], now);
  }

  /** With no filter active the view is a reordering of everything fetched. */
  lemma NoFiltersKeepAll(tasks: seq<Task>, now: int, format: int -> string)
    ensures multiset(View(tasks, NoFilters, now, format)) == multiset(tasks)
  {
    FilterAll(tasks, KeepsFn(NoFilters, format));
  }

  // ----- pagination (lines 125-127) -----

  /** `Math.ceil(n / ITEMS_PER_PAGE)`. */
  function TotalPages(n: nat): (k: nat)
    ensures k * ItemsPerPage >= n && (k == 0 || (k - 1) * ItemsPerPage < n)
    ensures k == 0 <==> n == 0
  {
    (n + ItemsPerPage - 1) / ItemsPerPage
  }

  /**
   * `Array.prototype.slice`: bounds within the array select `s[start..end]`, a start at or
   * past the end or an end at or before a non-negative start selects nothing, and the result
   * is always one contiguous run of `s`.
   */
  function JsSlice<T>(s: seq<T>, start: int, end: int): (r: seq<T>)
    ensures 0 <= start <= end <= |s| ==> r == s[start..end]
    ensures start >= |s| || 0 <= end <= start ==> r == []
    ensures exists i :: RunAt(s, r, i)
  {
    var lo, hi := Clamp(start, |s|), Clamp(end, |s|);
    var r := if lo < hi then s[lo..hi] else [];
    assert RunAt(s, r, lo);
    r
  }

  /** A slice takes each element at most as often as the array holds it. */
  lemma JsSliceSubMultiset<T>(s: seq<T>, start: int, end: int)
    ensures multiset(JsSlice(s, start, end)) <= multiset(s)
  {
    var r := JsSlice(s, start, end);
    var i :| RunAt(s, r, i);
    SliceMultiset(s, i, i + |r|);
  }

  /** `r` is the run of `s` that starts at index `i`. */
  predicate RunAt<T(==)>(s: seq<T>, r: seq<T>, i: int) {
    0 <= i <= |s| - |r| && r == s[i..i + |r|]
  }

  lemma SliceMultiset<T>(s: seq<T>, i: int, j: int)
    requires 0 <= i <= j <= |s|
    ensures multiset(s[i..j]) <= multiset(s)
  {
    assert s == s[..i] + s[i..j] + s[j..];
  }

  /** Negative bounds count from the end of the array, and bounds past the end stop there. */
  lemma JsSliceBounds<T>(s: seq<T>, start: int, end: int)
    ensures start < 0 ==> JsSlice(s, start, end) == JsSlice(s, Max(|s| + start, 0), end)
    ensures end < 0 ==> JsSlice(s, start, end) == JsSlice(s, start, Max(|s| + end, 0))
    ensures end > |s| ==> JsSlice(s, start, end) == JsSlice(s, start, |s|)
  {
  }

  function Max(a: int, b: int): int {
    if a >= b then a else b
  }

  function Clamp(i: int, n: nat): (r: nat)
    ensures r <= n
  {
    if i < 0 then (if n + i < 0 then 0 else n + i) else if i > n then n else i
  }

  /** `filteredTasks.slice(startIndex, startIndex + ITEMS_PER_PAGE)`. */
  function PageOf(list: seq<Task>, page: int): seq<Task> {
    var start := (page - 1) * ItemsPerPage;
    JsSlice(list, start, start + ItemsPerPage)
  }

  /** A page never holds more than eight tasks; a page past the last one is empty. */
  lemma PageBounds(list: seq<Task>, page: int)
    ensures |PageOf(list, page)| <= ItemsPerPage
    ensures page >= 1 && page > TotalPages(|list|) ==> PageOf(list, page) == []
    ensures 1 <= page <= TotalPages(|list|) ==>
      PageOf(list, page) == list[(page - 1) * ItemsPerPage..Min(page * ItemsPerPage, |list|)] &&
      |PageOf(list, page)| > 0
  {
  }

  function Min(a: int, b: int): int {
    if a <= b then a else b
  }

  /** Pages 1 to k, one after the other. */
  function Pages(list: seq<Task>, k: nat): seq<Task> {
    if k == 0 then [] else Pages(list, k - 1) + PageOf(list, k)
  }

  lemma {:induction false} PagesPrefix(list: seq<Task>, k: nat)
    ensures Pages(list, k) == list[..Min(k * ItemsPerPage, |list|)]
  {
    if k > 0 {
      PagesPrefix(list, k - 1);
      PageBounds(list, k);
      var a, b := Min((k - 1) * ItemsPerPage, |list|), Min(k * ItemsPerPage, |list|);
      assert Pages(list, k) == list[..a] + PageOf(list, k);
      if k > TotalPages(|list|) {
        assert a == b == |list|;
        assert Pages(list, k) == list[..a];
      } else {
        assert PageOf(list, k) == list[a..b];
        assert list[..a] + list[a..b] == list[..b];
      }
    }
  }

  /** Reading pages 1 to `TotalPages` gives back the whole list in order. */
  lemma PagesCoverList(list: seq<Task>)
    ensures Pages(list, TotalPages(|list|)) == list
  {
    PagesPrefix(list, TotalPages(|list|));
    assert list[..|list|] == list;
  }

  /** Seventeen tasks make three pages, the last holding one task. */
  lemma SeventeenTasks(list: seq<Task>)
    requires |list| == 17
    ensures TotalPages(|list|) == 3
    ensures |PageOf(list, 1)| == 8 && |PageOf(list, 2)| == 8 && |PageOf(list, 3)| == 1
    ensures PageOf(list, 3) == [list[16]]
  {
  }

  // ----- the page state (lines 35-65, 121-127) -----

  class DashboardState {
    var tasks: seq<Task>
    var filtered: seq<Task>
    var filters: Filters
    var currentPage: int
    var loading: bool

    /** The rows shown: the current page of the filtered list. */
    function Visible(): seq<Task>
      reads this
    {
      PageOf(filtered, currentPage)
    }

    /** `filteredTasks` is always the view of `tasks` under the current filters. */
    predicate Valid(now: int, format: int -> string)
      reads this
    {
      filtered == View(tasks, filters, now, format)
    }

    constructor()
      ensures tasks == [] && filtered == [] && filters == NoFilters && currentPage == 1 && loading
    {
      tasks := [];
      filtered := [];
      filters := NoFilters;
      currentPage := 1;
      loading := true;
    }

    /**
     * `fetchTasks`: a successful fetch replaces the tasks, goes back to page 1 and (through
     * the effect) re-derives the view; a failed one only reports "Failed to load tasks".
     * Loading ends either way.
     */
    method Fetched(reply: Option<seq<Task>>, now: int, format: int -> string) returns (toast: Option<string>)
      modifies this
      ensures !loading && filters == old(filters)
      ensures reply.Some? ==>
        toast.None? && tasks == reply.value && currentPage == 1 && Valid(now, format) &&
        Visible() == PageOf(View(reply.value, filters, now, format), 1)
      ensures reply.None? ==>
        toast == Some("Failed to load tasks") &&
        tasks == old(tasks) && filtered == old(filtered) && currentPage == old(currentPage)
    {
      loading := true;
      if reply.Some? {
        tasks := reply.value;
        filtered := reply.value;
        currentPage := 1;
        filtered := DeriveView(tasks, filters, now, format);
        toast := None;
      } else {
        toast := Some("Failed to load tasks");
      }
      loading := false;
    }

    /** A filter control changed: the view is re-derived and the page is left where it was. */
    method SetFilters(f: Filters, now: int, format: int -> string)
      modifies this`filters, this`filtered
      ensures filters == f && Valid(now, format)
    {
      filters := f;
      filtered := DeriveView(tasks, f, now, format);
    }

    /** `onPageChange={setCurrentPage}`. */
    method ChangePage(page: int)
      modifies this`currentPage
      ensures currentPage == page && Visible() == PageOf(filtered, page)
    {
      currentPage := page;
    }
  }
}
