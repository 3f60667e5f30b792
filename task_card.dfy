/**
 * What a task card displays (src/components/TaskCard.tsx): the overdue rule, the badge
 * colour tables and texts, and when a deletion reports back to the list.
 */
module TaskCard {
  import opened Text
  import opened Domain

  /**
   * Overdue: the task has a due date, is not completed, and the due date is in the past
   * (date-fns `isPast(d)` is `d < now`).
   */
  predicate IsOverdue(t: Task, now: int) {
    t.dueDate.Some? && t.status != Completed && t.dueDate.value < now
  }

  /** The Overdue badge and red border appear exactly for overdue tasks; never for completed or undated ones. */
  lemma OverdueBadge(t: Task, now: int)
    ensures t.status == Completed || t.dueDate.None? ==> !IsOverdue(t, now)
    ensures t.dueDate.Some? && t.status != Completed ==> (IsOverdue(t, now) <==> t.dueDate.value < now)
  {
  }

  function PriorityColor(p: Priority): string {
    match p
    case High => "bg-red-600 hover:bg-red-700 text-white"
    case Medium => "bg-amber-500 hover:bg-amber-600 text-white"
    case Low => "bg-green-600 hover:bg-green-700 text-white"
  }

  function StatusColor(s: Status): string {
    match s
    case Pending => "bg-gray-600 text-white"
    case InProgress => "bg-blue-600 text-white"
    case Completed => "bg-green-700 text-white"
  }

  /** Each table gives every value its own class string. */
  lemma ColorTablesInjective(p: Priority, q: Priority, s: Status, r: Status)
    ensures PriorityColor(p) == PriorityColor(q) ==> p == q
    ensures StatusColor(s) == StatusColor(r) ==> s == r
  {
    if p != q {
      assert PriorityColor(p)[3] != PriorityColor(q)[3];
    }
    if s != r {
      assert StatusColor(s)[3] != StatusColor(r)[3] || StatusColor(s)[12] != StatusColor(r)[12];
    }
  }

  /** `status.split("-").map(capitalise).join(" ")`. */
  function StatusLabel(s: Status): string {
    var parts := Split(StatusName(s), '-');
    Join(seq(|parts|, i requires 0 <= i < |parts| => Capitalize(parts[i])), " ")
  }

  /** `priority.toUpperCase()`: the name, character by character in capitals. */
  function PriorityLabel(p: Priority): (r: string)
    ensures |r| == |PriorityName(p)|
    ensures forall i :: 0 <= i < |r| ==> r[i] == UpperChar(PriorityName(p)[i])
    ensures forall i :: 0 <= i < |r| ==> !('a' <= r[i] <= 'z')
  {
    Upper(PriorityName(p))
  }

  lemma SplitWord(w: string, sep: char)
    requires forall i :: 0 <= i < |w| ==> w[i] != sep
    ensures Split(w, sep) == [w]
  {
    if w != [] {
      SplitWord(w[1..], sep);
      assert [w[0]] + w[1..] == w;
    }
  }

  lemma SplitTwo(a: string, b: string, sep: char)
    requires forall i :: 0 <= i < |a| ==> a[i] != sep
    requires forall i :: 0 <= i < |b| ==> b[i] != sep
    ensures Split(a + [sep] + b, sep) == [a, b]
  {
    if a == [] {
      assert a + [sep] + b == [sep] + b;
      assert ([sep] + b)[1..] == b;
      SplitWord(b, sep);
    } else {
      assert (a + [sep] + b)[1..] == a[1..] + [sep] + b;
      SplitTwo(a[1..], b, sep);
      assert [a[0]] + a[1..] == a;
    }
  }

  lemma CapitalizeWord(w: string, c: string)
    requires w != [] && |c| == |w| && c[0] == UpperChar(w[0]) && c[1..] == w[1..]
    ensures Capitalize(w) == c
  {
  }

  /** The status badge reads "Pending", "In Progress" or "Completed". */
  lemma StatusLabelPending()
    ensures StatusLabel(Pending) == "Pending"
  {
    SplitWord("pending", '-');
    CapitalizeWord("pending", "Pending");
  }

  lemma SplitInProgress()
    ensures Split("in-progress", '-') == ["in", "progress"]
  {
    assert "in-progress" == "in" + ['-'] + "progress";
    SplitTwo("in", "progress", '-');
  }

  lemma CapitalizeInProgress(parts: seq<string>)
    requires parts == ["in", "progress"]
    ensures seq(|parts|, i requires 0 <= i < |parts| => Capitalize(parts[i])) == ["In", "Progress"]
  {
    CapitalizeWord("in", "In");
    CapitalizeWord("progress", "Progress");
  }

  lemma StatusLabelInProgress()
    ensures StatusLabel(InProgress) == "In Progress"
  {
    assert StatusLabel(InProgress) == Join(["In", "Progress"], " ") by {
      SplitInProgress();
      CapitalizeInProgress(Split(StatusName(InProgress), '-'));
    }
    JoinTwoWords();
  }

  lemma JoinTwoWords()
    ensures Join(["In", "Progress"], " ") == "In Progress"
  {
  }

  lemma StatusLabelCompleted()
    ensures StatusLabel(Completed) == "Completed"
  {
    SplitWord("completed", '-');
    CapitalizeWord("completed", "Completed");
  }

  /** The priority badge reads "LOW", "MEDIUM" or "HIGH". */
  lemma PriorityLabels()
    ensures PriorityLabel(Low) == "LOW" && PriorityLabel(Medium) == "MEDIUM" && PriorityLabel(High) == "HIGH"
  {
  }

  /** The outcome of `fetch(..., { method: "DELETE" })`: a response, or a network failure. */
  datatype DeleteResponse = Responded(ok: bool) | NetworkFailure

  datatype DeleteFeedback = DeleteFeedback(callsOnDelete: bool, toast: string)

  /** `handleDeleteConfirm`: the list is refreshed (`onDelete`) only after an ok response. */
  function DeleteOutcome(r: DeleteResponse): (f: DeleteFeedback)
    ensures f.callsOnDelete <==> r == Responded(true)
    ensures f.toast == if f.callsOnDelete then "Task deleted successfully" else "Failed to delete task"
  {
    if r.Responded? && r.ok then DeleteFeedback(true, "Task deleted successfully")
    else DeleteFeedback(false, "Failed to delete task")
  }
}
