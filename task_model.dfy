/**
 * The stored task record (src/models/Task.ts): casting with `trim`, defaults, the field
 * validators, and the `pre('save')` hook that stamps `updatedAt`.
 */
module TaskModel {
  import opened Wrappers
  import opened Text
  import opened Domain

  /** The values handed to the model; absent keys are `None`. */
  datatype DocInput = DocInput(
    userId: Option<string>,
    title: Option<string>,
    description: Option<string>,
    priority: Option<string>,
    status: Option<string>,
    dueDate: Option<int>)

  /** A document's paths after casting and defaults, before validation. */
  datatype DocFields = DocFields(
    id: string,
    userId: Option<string>,
    title: Option<string>,
    description: Option<string>,
    priority: string,
    status: string,
    dueDate: Option<int>,
    createdAt: int,
    updatedAt: int)

  function TrimOpt(s: Option<string>): (r: Option<string>)
    ensures r.None? <==> s.None?
    ensures r == if s.Some? then Some(Trim(s.value)) else None
    ensures r.Some? ==> Trim(r.value) == r.value && Utf16Len(r.value) <= Utf16Len(s.value)
  {
    if s.Some? then TrimIdempotent(s.value); TrimUtf16Len(s.value); Some(Trim(s.value)) else None
  }

  /**
   * Building a document: string paths are trimmed, a missing priority becomes "medium" and a
   * missing status "pending", and both timestamps default to the creation time `now`.
   */
  function Prepare(input: DocInput, id: string, now: int): (d: DocFields)
    ensures d.id == id && d.userId == input.userId && d.dueDate == input.dueDate
    ensures d.title == TrimOpt(input.title) && d.description == TrimOpt(input.description)
    ensures input.title.None? <==> d.title.None?
    ensures d.title.Some? ==>
      Trim(d.title.value) == d.title.value && Utf16Len(d.title.value) <= Utf16Len(input.title.value)
    ensures input.description.None? <==> d.description.None?
    ensures d.description.Some? ==>
      Trim(d.description.value) == d.description.value &&
      Utf16Len(d.description.value) <= Utf16Len(input.description.value)
    ensures d.priority == if input.priority.None? then "medium" else input.priority.value
    ensures d.status == if input.status.None? then "pending" else input.status.value
    ensures d.createdAt == now && d.updatedAt == now
  {
    DocFields(id, input.userId, TrimOpt(input.title), TrimOpt(input.description),
              if input.priority.Some? then input.priority.value else "medium",
              if input.status.Some? then input.status.value else "pending",
              input.dueDate, now, now)
  }

  /**
   * The schema's validators: `userId` and `title` are required (an empty string fails
   * `required`), the title has at most 100 and the description at most 500 UTF-16 code units,
   * and priority and status lie in their enumerations.
   */
  predicate Conforms(d: DocFields) {
    d.userId.Some? &&
    d.title.Some? && d.title.value != "" && Utf16Len(d.title.value) <= 100 &&
    (d.description.None? || Utf16Len(d.description.value) <= 500) &&
    ParsePriority(d.priority).Some? && ParseStatus(d.status).Some?
  }

  /** A validated document as the stored record. */
  function ToTask(d: DocFields): (t: Task)
    requires Conforms(d)
    ensures 1 <= Utf16Len(t.title) <= 100
    ensures t.description.Some? ==> Utf16Len(t.description.value) <= 500
    ensures PriorityName(t.priority) == d.priority && StatusName(t.status) == d.status
    ensures t.userId == d.userId.value && t.title == d.title.value && t.description == d.description
    ensures t.id == d.id && t.dueDate == d.dueDate && t.createdAt == d.createdAt && t.updatedAt == d.updatedAt
  {
    Task(d.id, d.userId.value, d.title.value, d.description, ParsePriority(d.priority).value,
         ParseStatus(d.status).value, d.dueDate, d.createdAt, d.updatedAt)
  }

  /** With no priority and no status given, a stored task is medium and pending. */
  lemma DefaultsApply(input: DocInput, id: string, now: int)
    requires input.priority.None? && input.status.None?
    requires Conforms(Prepare(input, id, now))
    ensures ToTask(Prepare(input, id, now)).priority == Medium
    ensures ToTask(Prepare(input, id, now)).status == Pending
  {
  }

  /** A title made only of white space is missing once trimmed, so the document is rejected. */
  lemma BlankTitleRejected(input: DocInput, id: string, now: int)
    requires input.title.Some?
    requires forall i :: 0 <= i < |input.title.value| ==> IsSpace(input.title.value[i])
    ensures !Conforms(Prepare(input, id, now))
  {
  }

  /** A task document; `save` runs the validators, then the hook that sets `updatedAt`. */
  class TaskDocument {
    var id: string
    var userId: Option<string>
    var title: Option<string>
    var description: Option<string>
    var priority: string
    var status: string
    var dueDate: Option<int>
    var createdAt: int
    var updatedAt: int

    function Fields(): DocFields
      reads this
    {
      DocFields(id, userId, title, description, priority, status, dueDate, createdAt, updatedAt)
    }

    /** `new Task(input)` at time `now`. */
    constructor (input: DocInput, newId: string, now: int)
      ensures Fields() == Prepare(input, newId, now)
    {
      var d := Prepare(input, newId, now);
      id, userId, title, description := d.id, d.userId, d.title, d.description;
      priority, status, dueDate := d.priority, d.status, d.dueDate;
      createdAt, updatedAt := d.createdAt, d.updatedAt;
    }

    /**
     * `doc.save()` at time `now`: a document that fails validation is left as it was;
     * otherwise the hook sets `updatedAt` to `now` and nothing else changes.
     */
    method Save(now: int) returns (ok: bool)
      modifies this`updatedAt
      ensures ok == Conforms(old(Fields()))
      ensures Fields() == if ok then old(Fields()).(updatedAt := now) else old(Fields())
    {
      ok := Conforms(Fields());
      if ok {
        updatedAt := now;
      }
    }
  }
}
