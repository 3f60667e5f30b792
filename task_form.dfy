/**
 * The task dialog (src/components/TaskForm.tsx): its stricter schema, its default values,
 * the request it sends, when its submit button is enabled, the message it shows when
 * saving fails, and the dialog state that a submission changes.
 */
module TaskForm {
  import opened Wrappers
  import opened Domain
  import opened Schemas
  import opened Http
  import Text
  import TasksRoute

  // ----- enhancedTaskSchema (lines 28-36) -----

  const TitleTooShort := "Title must be at least 3 characters"
  const TitleTooLong := "Title too long"
  const DueDateMissing := "Due date is required"
  const DueDateUnreadable := "Invalid date format"
  const DueDateNotFuture := "Due date must be in the future"

  function FormTitleIssues(t: Option<string>): seq<Issue> {
    if t.None? then [Issue(Title, RequiredMessage)]
    else
      (if Text.Utf16Len(t.value) < 3 then [Issue(Title, TitleTooShort)] else []) +
      (if Text.Utf16Len(t.value) > 100 then [Issue(Title, TitleTooLong)] else [])
  }

  /**
   * The due-date chain: a missing key stops at "Required"; otherwise the length check and
   * both refinements all run (a failed `min` leaves the value dirty, not aborted).
   * `parse` stands for `new Date(val)`, None being the invalid date that `isValid` rejects;
   * `isFuture(d)` is `d > now`.
   */
  function FormDueDateIssues(d: Option<string>, now: int, parse: string -> Option<int>): seq<Issue> {
    if d.None? then [Issue(DueDate, RequiredMessage)]
    else
      (if Text.Utf16Len(d.value) < 1 then [Issue(DueDate, DueDateMissing)] else []) +
      (if parse(d.value).None? then [Issue(DueDate, DueDateUnreadable)] else []) +
      (if parse(d.value).None? || parse(d.value).value <= now then [Issue(DueDate, DueDateNotFuture)] else [])
  }

  predicate FormTitleOk(raw: RawTask) {
    raw.title.Some? && 3 <= Text.Utf16Len(raw.title.value) <= 100
  }

  predicate FormDueDateOk(raw: RawTask, now: int, parse: string -> Option<int>) {
    raw.dueDate.Some? && raw.dueDate.value != "" &&
    parse(raw.dueDate.value).Some? && parse(raw.dueDate.value).value > now
  }

  /** The form schema: the base rules for description, priority and status, stricter title and due date. */
  predicate FormAccepts(raw: RawTask, now: int, parse: string -> Option<int>) {
    FormTitleOk(raw) && DescriptionOk(raw) && PriorityOk(raw) && StatusOk(raw) && FormDueDateOk(raw, now, parse)
  }

  function FormFailingFields(raw: RawTask, now: int, parse: string -> Option<int>): set<Field> {
    (if FormTitleOk(raw) then {} else {Title}) +
    (if DescriptionOk(raw) then {} else {Description}) +
    (if PriorityOk(raw) then {} else {PriorityField}) +
    (if StatusOk(raw) then {} else {StatusField}) +
    (if FormDueDateOk(raw, now, parse) then {} else {DueDate})
  }

  /** `extend` keeps the keys of the base object in place, so the issue order is unchanged. */
  function FormIssues(raw: RawTask, now: int, parse: string -> Option<int>): seq<Issue> {
    FormTitleIssues(raw.title) + DescriptionIssues(raw.description) + PriorityIssues(raw.priority) +
    StatusIssues(raw.status) + FormDueDateIssues(raw.dueDate, now, parse)
  }

  lemma FormTitleFields(raw: RawTask)
    ensures FieldsOf(FormTitleIssues(raw.title)) == if FormTitleOk(raw) then {} else {Title}
  {
    FieldsOfSingle(Issue(Title, RequiredMessage));
    if raw.title.Some? {
      var a := if Text.Utf16Len(raw.title.value) < 3 then [Issue(Title, TitleTooShort)] else [];
      var b := if Text.Utf16Len(raw.title.value) > 100 then [Issue(Title, TitleTooLong)] else [];
      FieldsOfConcat(a, b);
      FieldsOfSingle(Issue(Title, TitleTooShort));
      FieldsOfSingle(Issue(Title, TitleTooLong));
    }
  }

  lemma FormDueDateFields(raw: RawTask, now: int, parse: string -> Option<int>)
    ensures FieldsOf(FormDueDateIssues(raw.dueDate, now, parse)) == if FormDueDateOk(raw, now, parse) then {} else {DueDate}
  {
    FieldsOfSingle(Issue(DueDate, RequiredMessage));
    if raw.dueDate.Some? {
      var v := raw.dueDate.value;
      var a := if Text.Utf16Len(v) < 1 then [Issue(DueDate, DueDateMissing)] else [];
      var b := if parse(v).None? then [Issue(DueDate, DueDateUnreadable)] else [];
      var c := if parse(v).None? || parse(v).value <= now then [Issue(DueDate, DueDateNotFuture)] else [];
      FieldsOfConcat(a, b);
      FieldsOfConcat(a + b, c);
      FieldsOfSingle(Issue(DueDate, DueDateMissing));
      FieldsOfSingle(Issue(DueDate, DueDateUnreadable));
      FieldsOfSingle(Issue(DueDate, DueDateNotFuture));
    }
  }

  lemma FormIssuesReportFields(raw: RawTask, now: int, parse: string -> Option<int>)
    ensures FieldsOf(FormIssues(raw, now, parse)) == FormFailingFields(raw, now, parse)
  {
    var t, d, p, s, u := FormTitleIssues(raw.title), DescriptionIssues(raw.description),
      PriorityIssues(raw.priority), StatusIssues(raw.status), FormDueDateIssues(raw.dueDate, now, parse);
    FieldsOfConcat(t, d);
    FieldsOfConcat(t + d, p);
    FieldsOfConcat(t + d + p, s);
    FieldsOfConcat(t + d + p + s, u);
    FormTitleFields(raw);
    PartFields(raw, parse);
    FormDueDateFields(raw, now, parse);
  }

  /**
   * The resolver: the values are accepted exactly when the form schema holds, the accepted
   * value carries the form's own fields, and a rejection names each failing field and only those.
   */
  function ParseForm(raw: RawTask, now: int, parse: string -> Option<int>): (r: Result<ValidTask>)
    ensures r.Ok? <==> FormAccepts(raw, now, parse)
    ensures r.Ok? ==>
      Some(r.value.title) == raw.title && r.value.description == raw.description &&
      Some(PriorityName(r.value.priority)) == raw.priority && Some(StatusName(r.value.status)) == raw.status &&
      r.value.dueDate == raw.dueDate
    ensures r.Invalid? ==> |r.issues| > 0 && FieldsOf(r.issues) == FormFailingFields(raw, now, parse)
  {
    var issues := FormIssues(raw, now, parse);
    FormIssuesReportFields(raw, now, parse);
    if issues == [] then
      Ok(ValidTask(raw.title.value, raw.description, ParsePriority(raw.priority.value).value,
                   ParseStatus(raw.status.value).value, raw.dueDate))
    else
      Invalid(issues)
  }

  /**
   * The form schema refines the base schema: whatever the form accepts, `taskSchema` accepts
   * with the same result. The converse fails: a base-valid body with a two-letter title or
   * without a due date is refused by the form.
   */
  lemma FormRefinesTaskSchema(raw: RawTask, now: int, parse: string -> Option<int>)
    ensures FormAccepts(raw, now, parse) ==> TaskValid(raw, parse) && ParseForm(raw, now, parse) == ParseTask(raw, parse)
    ensures raw.title.Some? && Text.Utf16Len(raw.title.value) < 3 ==> !FormAccepts(raw, now, parse)
    ensures raw.dueDate.None? ==> !FormAccepts(raw, now, parse)
  {
  }

  /** The message shown under the due-date picker: the first issue on that field. */
  lemma DueDateMessage(raw: RawTask, now: int, parse: string -> Option<int>)
    ensures raw.dueDate.None? ==> FirstMessageFor(FormIssues(raw, now, parse), DueDate) == Some(RequiredMessage)
    ensures raw.dueDate == Some("") ==> FirstMessageFor(FormIssues(raw, now, parse), DueDate) == Some(DueDateMissing)
    ensures raw.dueDate.Some? && raw.dueDate.value != "" && parse(raw.dueDate.value).None? ==>
      FirstMessageFor(FormIssues(raw, now, parse), DueDate) == Some(DueDateUnreadable)
    ensures raw.dueDate.Some? && raw.dueDate.value != "" && parse(raw.dueDate.value).Some? &&
            parse(raw.dueDate.value).value <= now ==>
      FirstMessageFor(FormIssues(raw, now, parse), DueDate) == Some(DueDateNotFuture)
    ensures FormDueDateOk(raw, now, parse) ==> FirstMessageFor(FormIssues(raw, now, parse), DueDate).None?
  {
    var front := FormTitleIssues(raw.title) + DescriptionIssues(raw.description) + PriorityIssues(raw.priority) +
      StatusIssues(raw.status);
    var due := FormDueDateIssues(raw.dueDate, now, parse);
    assert FormIssues(raw, now, parse) == front + due;
    FirstMessageSkips(front, due, DueDate);
  }

  /** A prefix with no issue on `f` does not change the first message on `f`. */
  lemma {:induction false} FirstMessageSkips(front: seq<Issue>, rest: seq<Issue>, f: Field)
    requires forall i :: 0 <= i < |front| ==> front[i].field != f
    ensures FirstMessageFor(front + rest, f) == FirstMessageFor(rest, f)
  {
    if front != [] {
      assert (front + rest)[1..] == front[1..] + rest;
      FirstMessageSkips(front[1..], rest, f);
    } else {
      assert front + rest == rest;
    }
  }

  // ----- default values (lines 46-61) -----

  /** `task.dueDate ? new Date(task.dueDate) : undefined`: the picked date starts as the task's. */
  function InitialDate(task: Option<Task>): Option<int> {
    if task.Some? then task.value.dueDate else None
  }

  /**
   * `defaultValues`: empty strings, "medium" and "pending" for a new task; for an edit, the
   * task's own values with a missing or empty description as "" and the due date as
   * `format(d, "yyyy-MM-dd")` (`format` stands for that formatting).
   */
  function Defaults(task: Option<Task>, format: int -> string): (v: RawTask)
    ensures task.None? ==> v == RawTask(Some(""), Some(""), Some("medium"), Some("pending"), Some(""))
    ensures task.Some? ==>
      v.title == Some(task.value.title) &&
      v.description == Some(if Truthy(task.value.description) then task.value.description.value else "") &&
      v.dueDate == Some(if task.value.dueDate.Some? then format(task.value.dueDate.value) else "")
    ensures task.Some? ==> v.priority.Some? && ParsePriority(v.priority.value) == Some(task.value.priority)
    ensures task.Some? ==> v.status.Some? && ParseStatus(v.status.value) == Some(task.value.status)
  {
    match task
    case None => RawTask(Some(""), Some(""), Some("medium"), Some("pending"), Some(""))
    case Some(t) =>
      PriorityRoundTrip(t.priority, PriorityName(t.priority));
      StatusRoundTrip(t.status, StatusName(t.status));
      RawTask(Some(t.title), Some(if Truthy(t.description) then t.description.value else ""),
              Some(PriorityName(t.priority)), Some(StatusName(t.status)),
              Some(if t.dueDate.Some? then format(t.dueDate.value) else ""))
  }

  /**
   * A fresh form cannot be submitted as it stands: the title is too short and the
   * due date empty; the priority and status defaults are valid choices.
   */
  lemma NewDefaultsRejected(now: int, parse: string -> Option<int>, format: int -> string)
    ensures !FormAccepts(Defaults(None, format), now, parse)
    ensures FirstMessageFor(FormIssues(Defaults(None, format), now, parse), Title) == Some(TitleTooShort)
    ensures FirstMessageFor(FormIssues(Defaults(None, format), now, parse), DueDate) == Some(DueDateMissing)
    ensures PriorityOk(Defaults(None, format)) && StatusOk(Defaults(None, format))
  {
    var raw := Defaults(None, format);
    FirstMessageTitle(raw, now, parse);
    DueDateMessage(raw, now, parse);
  }

  lemma FirstMessageTitle(raw: RawTask, now: int, parse: string -> Option<int>)
    requires raw.title == Some("")
    ensures FirstMessageFor(FormIssues(raw, now, parse), Title) == Some(TitleTooShort)
  {
    assert FormTitleIssues(raw.title) == [Issue(Title, TitleTooShort)];
    assert FormIssues(raw, now, parse)[0] == Issue(Title, TitleTooShort);
  }

  // ----- the request (lines 63-79) -----

  const CollectionUrl := "/api/tasks"

  /** `method` and `url`: PUT to the task's own URL when editing, POST to the collection otherwise. */
  function Target(task: Option<Task>): (r: (string, string))
    ensures r.0 == (if task.Some? then "PUT" else "POST")
    ensures task.None? ==> r.1 == CollectionUrl
    ensures task.Some? ==> r.1 == CollectionUrl + "/" + task.value.id
  {
    if task.Some? then ("PUT", CollectionUrl + "/" + task.value.id) else ("POST", CollectionUrl)
  }

  /** An edit never goes to the collection, and the URL names exactly one task. */
  lemma TargetIdentifiesTask(a: Task, b: Task)
    ensures Target(Some(a)).1 != Target(None).1
    ensures Target(Some(a)).1 == Target(Some(b)).1 ==> a.id == b.id
  {
    var prefix := CollectionUrl + "/";
    assert |Target(Some(a)).1| > |CollectionUrl|;
    if Target(Some(a)).1 == Target(Some(b)).1 {
      assert Target(Some(a)).1[|prefix|..] == a.id;
      assert Target(Some(b)).1[|prefix|..] == b.id;
    }
  }

  /**
   * The JSON body: the resolver's output, with the due date taken from the picked date
   * (`format(date, "yyyy-MM-dd")`), and the key dropped when no date is picked.
   */
  function SubmitBody(data: ValidTask, date: Option<int>, format: int -> string): RawTask {
    RawTask(Some(data.title), data.description, Some(PriorityName(data.priority)), Some(StatusName(data.status)),
            if date.Some? then Some(format(date.value)) else None)
  }

  /** `disabled={!isFormValid || isSubmitting}` with `isFormValid = isValid && !!date`. */
  predicate SubmitEnabled(values: RawTask, date: Option<int>, submitting: bool, now: int, parse: string -> Option<int>) {
    FormAccepts(values, now, parse) && date.Some? && !submitting
  }

  /**
   * An enabled submission passes the server's schema whenever the formatted picked date is
   * readable; on a live database it creates the task exactly when the title is not blank.
   * A title of three spaces passes the form and the schema and is refused by the model,
   * which the route answers with 500.
   */
  lemma EnabledSubmitReachesServer(values: RawTask, date: Option<int>, now: int, parse: string -> Option<int>,
                                   format: int -> string, session: string, newId: string)
    requires SubmitEnabled(values, date, false, now, parse)
    requires parse(format(date.value)).Some?
    requires session != ""
    ensures TaskValid(SubmitBody(ParseForm(values, now, parse).value, date, format), parse)
    ensures var body := SubmitBody(ParseForm(values, now, parse).value, date, format);
      TasksRoute.Post(Some(session), Some(body), true, newId, now, parse).created.Some? <==>
      Text.Trim(values.title.value) != ""
  {
  }

  // ----- the failure message (lines 84-100) -----

  /** The fields of a response's JSON that the form reads. */
  datatype ReplyJson = ReplyJson(error: Option<string>, details: Option<seq<Issue>>)

  function ReplyOf(b: Body): ReplyJson {
    match b
    case ErrorBody(e) => ReplyJson(Some(e), None)
    case ValidationBody(e, d) => ReplyJson(Some(e), Some(d))
    case _ => ReplyJson(None, None)
  }

  const SaveFailed := "Failed to save task"

  /**
   * `error || details?.[0]?.message || "Failed to save task"`, with JavaScript truthiness:
   * the message is never empty, a non-empty error wins, a non-empty first detail comes next.
   */
  function FailureMessage(j: ReplyJson): (m: string)
    ensures m != ""
    ensures m == SaveFailed || Truthy(j.error) || (j.details.Some? && |j.details.value| > 0)
    ensures Truthy(j.error) ==> m == j.error.value
    ensures !Truthy(j.error) && j.details.Some? && |j.details.value| > 0 && j.details.value[0].message != "" ==>
      m == j.details.value[0].message
    ensures !Truthy(j.error) && !(j.details.Some? && |j.details.value| > 0 && j.details.value[0].message != "") ==>
      m == SaveFailed
  {
    if Truthy(j.error) then j.error.value
    else if j.details.Some? && |j.details.value| > 0 && j.details.value[0].message != "" then j.details.value[0].message
    else SaveFailed
  }

  /**
   * Against the collection route, every refusal carries a non-empty `error`, so the form
   * always shows that error and never a validation detail: a schema failure reads
   * "Validation failed".
   */
  lemma RouteFailuresShowError(session: Option<string>, body: Option<RawTask>, dbUp: bool, newId: string, now: int,
                               parse: string -> Option<int>)
    ensures var r := TasksRoute.Post(session, body, dbUp, newId, now, parse);
      r.created.None? ==>
        FailureMessage(ReplyOf(r.response.body)) in {"Unauthorized", "Server error", "Validation failed"}
  {
  }

  // ----- the dialog state (lines 45-48, 65-102, 211-217) -----

  datatype Toast = Success(message: string) | Failure(title: string, description: string)

  /** The server's answer to the request: `res.ok` and the JSON it carried. */
  datatype Reply = Reply(ok: bool, json: ReplyJson)

  class FormState {
    const task: Option<Task>
    const defaults: RawTask
    var open: bool
    var date: Option<int>
    var values: RawTask

    constructor(task: Option<Task>, format: int -> string)
      ensures this.task == task && defaults == Defaults(task, format)
      ensures !open && date == InitialDate(task) && values == defaults
    {
      this.task := task;
      defaults := Defaults(task, format);
      open := false;
      date := InitialDate(task);
      values := Defaults(task, format);
    }

    /** The dialog trigger and its close button (`onOpenChange`). */
    method SetOpen(b: bool)
      modifies this`open
      ensures open == b
    {
      open := b;
    }

    /** Typing in the title and description inputs. */
    method Type(title: string, description: string)
      modifies this`values
      ensures values == old(values).(title := Some(title), description := Some(description))
    {
      values := values.(title := Some(title), description := Some(description));
    }

    /** The priority and status selects offer only the schema's values. */
    method Choose(p: Priority, s: Status)
      modifies this`values
      ensures values == old(values).(priority := Some(PriorityName(p)), status := Some(StatusName(s)))
    {
      values := values.(priority := Some(PriorityName(p)), status := Some(StatusName(s)));
    }

    /**
     * The calendar: a past day is disabled (`isPast(d)` is `d < now`) and changes nothing;
     * otherwise the picked date, or none when the day is unselected, is stored and mirrored
     * into the form's `dueDate` string.
     */
    method SelectDate(d: Option<int>, now: int, format: int -> string)
      modifies this`date, this`values
      ensures d.Some? && d.value < now ==> date == old(date) && values == old(values)
      ensures !(d.Some? && d.value < now) ==>
        date == d && values == old(values).(dueDate := Some(if d.Some? then format(d.value) else ""))
    {
      if !(d.Some? && d.value < now) {
        date := d;
        values := values.(dueDate := Some(if d.Some? then format(d.value) else ""));
      }
    }

    /**
     * `handleSubmit(onSubmit)`: values the resolver refuses send nothing. Accepted values
     * are sent to `Target(task)`; an ok reply shows the success toast, resets the values to
     * the defaults, closes the dialog and notifies the parent (`onSuccess`); any other reply
     * shows the failure toast and leaves the dialog as it was. The picked date is never reset.
     */
    method Submit(now: int, parse: string -> Option<int>, format: int -> string, reply: Reply)
      returns (request: Option<(string, string, RawTask)>, toast: Option<Toast>, notified: bool)
      modifies this`open, this`values
      ensures !FormAccepts(old(values), now, parse) ==>
        request.None? && toast.None? && !notified && values == old(values) && open == old(open)
      ensures FormAccepts(old(values), now, parse) ==>
        request == Some((Target(task).0, Target(task).1, SubmitBody(ParseForm(old(values), now, parse).value, date, format)))
      ensures FormAccepts(old(values), now, parse) && reply.ok ==>
        toast == Some(Success(if task.Some? then "Task updated successfully!" else "Task created successfully!")) &&
        notified && values == defaults && !open
      ensures FormAccepts(old(values), now, parse) && !reply.ok ==>
        toast == Some(Failure(SaveFailed, FailureMessage(reply.json))) && !notified &&
        values == old(values) && open == old(open)
    {
      var parsed := ParseForm(values, now, parse);
      if parsed.Invalid? {
        return None, None, false;
      }
      var target := Target(task);
      request := Some((target.0, target.1, SubmitBody(parsed.value, date, format)));
      if reply.ok {
        toast := Some(Success(if task.Some? then "Task updated successfully!" else "Task created successfully!"));
        values := defaults;
        open := false;
        notified := true;
      } else {
        var message := FailureMessage(reply.json);
        toast := Some(Failure(SaveFailed, if message != "" then message else "Please check the form and try again"));
        notified := false;
      }
    }
  }
}
