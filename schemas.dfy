/**
 * The shared validation schemas (src/lib/schemas.ts) as functions from a raw JSON body to
 * either the validated value or the list of issues, in the order Zod 3 reports them
 * (object keys in declaration order, every check of a present string field).
 * Texts of Zod's built-in checks are Zod 3's default messages. String lengths are JavaScript's
 * `length`, in UTF-16 code units.
 */
module Schemas {
  import opened Wrappers
  import opened Domain
  import Text

  datatype Field = Title | Description | PriorityField | StatusField | DueDate | Name | Email | Password

  datatype Issue = Issue(field: Field, message: string)

  datatype Result<+T> = Ok(value: T) | Invalid(issues: seq<Issue>)

  /** A task body as JSON: every key may be missing; non-string values are not modelled. */
  datatype RawTask = RawTask(
    title: Option<string>,
    description: Option<string>,
    priority: Option<string>,
    status: Option<string>,
    dueDate: Option<string>)

  /** What `taskSchema.parse` returns. */
  datatype ValidTask = ValidTask(
    title: string,
    description: Option<string>,
    priority: Priority,
    status: Status,
    dueDate: Option<string>)

  const RequiredMessage := "Required"

  /** Issues the form is shown for one field: the first one Zod reported for it. */
  function FirstMessageFor(issues: seq<Issue>, f: Field): (m: Option<string>)
    ensures m.Some? <==> exists i :: 0 <= i < |issues| && issues[i].field == f
    ensures m.Some? ==> exists i :: 0 <= i < |issues| && issues[i] == Issue(f, m.value)
  {
    if issues == [] then None
    else if issues[0].field == f then Some(issues[0].message)
    else
      var m := FirstMessageFor(issues[1..], f);
      assert forall i :: 0 < i < |issues| ==> issues[i] == issues[1..][i - 1];
      m
  }

  function EnumMessage(expected: string, received: string): string {
    "Invalid enum value. Expected " + expected + ", received '" + received + "'"
  }

  // ----- taskSchema (lines 14-22) -----

  function TitleIssues(t: Option<string>): seq<Issue> {
    if t.None? then [Issue(Title, RequiredMessage)]
    else
      (if Text.Utf16Len(t.value) < 1 then [Issue(Title, "String must contain at least 1 character(s)")] else []) +
      (if Text.Utf16Len(t.value) > 100 then [Issue(Title, "String must contain at most 100 character(s)")] else [])
  }

  function DescriptionIssues(d: Option<string>): seq<Issue> {
    if d.Some? && Text.Utf16Len(d.value) > 500 then [Issue(Description, "String must contain at most 500 character(s)")]
    else []
  }

  function PriorityIssues(p: Option<string>): seq<Issue> {
    if p.None? then [Issue(PriorityField, RequiredMessage)]
    else if ParsePriority(p.value).None? then [Issue(PriorityField, EnumMessage("'low' | 'medium' | 'high'", p.value))]
    else []
  }

  function StatusIssues(s: Option<string>): seq<Issue> {
    if s.None? then [Issue(StatusField, RequiredMessage)]
    else if ParseStatus(s.value).None? then
      [Issue(StatusField, EnumMessage("'pending' | 'in-progress' | 'completed'", s.value))]
    else []
  }

  /** The refinement `!val || !isNaN(Date.parse(val))`; `parse` stands for `Date.parse`. */
  function DueDateIssues(d: Option<string>, parse: string -> Option<int>): seq<Issue> {
    if d.Some? && d.value != "" && parse(d.value).None? then [Issue(DueDate, "Invalid date")] else []
  }

  /** The rules of `taskSchema`, field by field. */
  predicate TitleOk(raw: RawTask) {
    raw.title.Some? && 1 <= Text.Utf16Len(raw.title.value) <= 100
  }

  predicate DescriptionOk(raw: RawTask) {
    raw.description.None? || Text.Utf16Len(raw.description.value) <= 500
  }

  /** See `Domain.PriorityRoundTrip`: the accepted strings are exactly "low", "medium", "high". */
  predicate PriorityOk(raw: RawTask) {
    raw.priority.Some? && ParsePriority(raw.priority.value).Some?
  }

  predicate StatusOk(raw: RawTask) {
    raw.status.Some? && ParseStatus(raw.status.value).Some?
  }

  predicate DueDateOk(raw: RawTask, parse: string -> Option<int>) {
    raw.dueDate.None? || raw.dueDate.value == "" || parse(raw.dueDate.value).Some?
  }

  predicate TaskValid(raw: RawTask, parse: string -> Option<int>) {
    TitleOk(raw) && DescriptionOk(raw) && PriorityOk(raw) && StatusOk(raw) && DueDateOk(raw, parse)
  }

  /** The fields whose rule `raw` breaks. */
  function FailingFields(raw: RawTask, parse: string -> Option<int>): set<Field> {
    (if TitleOk(raw) then {} else {Title}) +
    (if DescriptionOk(raw) then {} else {Description}) +
    (if PriorityOk(raw) then {} else {PriorityField}) +
    (if StatusOk(raw) then {} else {StatusField}) +
    (if DueDateOk(raw, parse) then {} else {DueDate})
  }

  function TaskIssues(raw: RawTask, parse: string -> Option<int>): seq<Issue> {
    TitleIssues(raw.title) + DescriptionIssues(raw.description) + PriorityIssues(raw.priority) +
    StatusIssues(raw.status) + DueDateIssues(raw.dueDate, parse)
  }

  /** The fields a list of issues names. */
  function FieldsOf(issues: seq<Issue>): set<Field> {
    if issues == [] then {} else {issues[0].field} + FieldsOf(issues[1..])
  }

  lemma {:induction false} FieldsOfConcat(a: seq<Issue>, b: seq<Issue>)
    ensures FieldsOf(a + b) == FieldsOf(a) + FieldsOf(b)
  {
    if a == [] {
      assert a + b == b;
    } else {
      assert (a + b)[0] == a[0];
      assert (a + b)[1..] == a[1..] + b;
      FieldsOfConcat(a[1..], b);
    }
  }

  lemma FieldsOfSingle(i: Issue)
    ensures FieldsOf([i]) == {i.field}
  {
    assert [i][1..] == [];
  }

  /** Each field's own check reports that field exactly when its rule fails. */
  lemma PartFields(raw: RawTask, parse: string -> Option<int>)
    ensures FieldsOf(TitleIssues(raw.title)) == if TitleOk(raw) then {} else {Title}
    ensures FieldsOf(DescriptionIssues(raw.description)) == if DescriptionOk(raw) then {} else {Description}
    ensures FieldsOf(PriorityIssues(raw.priority)) == if PriorityOk(raw) then {} else {PriorityField}
    ensures FieldsOf(StatusIssues(raw.status)) == if StatusOk(raw) then {} else {StatusField}
    ensures FieldsOf(DueDateIssues(raw.dueDate, parse)) == if DueDateOk(raw, parse) then {} else {DueDate}
  {
    FieldsOfSingle(Issue(Title, RequiredMessage));
    FieldsOfSingle(Issue(Title, "String must contain at least 1 character(s)"));
    FieldsOfSingle(Issue(Title, "String must contain at most 100 character(s)"));
    if raw.title.Some? {
      assert TitleIssues(raw.title) ==
        (if Text.Utf16Len(raw.title.value) < 1 then [Issue(Title, "String must contain at least 1 character(s)")] else []) +
        (if Text.Utf16Len(raw.title.value) > 100 then [Issue(Title, "String must contain at most 100 character(s)")] else []);
      if Text.Utf16Len(raw.title.value) < 1 {
        assert TitleIssues(raw.title) == [Issue(Title, "String must contain at least 1 character(s)")];
      } else if Text.Utf16Len(raw.title.value) > 100 {
        assert TitleIssues(raw.title) == [Issue(Title, "String must contain at most 100 character(s)")];
      } else {
        assert TitleIssues(raw.title) == [];
      }
    }
    FieldsOfSingle(Issue(Description, "String must contain at most 500 character(s)"));
    if raw.priority.Some? {
      FieldsOfSingle(Issue(PriorityField, EnumMessage("'low' | 'medium' | 'high'", raw.priority.value)));
    }
    FieldsOfSingle(Issue(PriorityField, RequiredMessage));
    if raw.status.Some? {
      FieldsOfSingle(Issue(StatusField, EnumMessage("'pending' | 'in-progress' | 'completed'", raw.status.value)));
    }
    FieldsOfSingle(Issue(StatusField, RequiredMessage));
    FieldsOfSingle(Issue(DueDate, "Invalid date"));
  }

  lemma TaskIssuesReportFields(raw: RawTask, parse: string -> Option<int>)
    ensures FieldsOf(TaskIssues(raw, parse)) == FailingFields(raw, parse)
  {
    var t, d, p, s, u := TitleIssues(raw.title), DescriptionIssues(raw.description),
      PriorityIssues(raw.priority), StatusIssues(raw.status), DueDateIssues(raw.dueDate, parse);
    FieldsOfConcat(t, d);
    FieldsOfConcat(t + d, p);
    FieldsOfConcat(t + d + p, s);
    FieldsOfConcat(t + d + p + s, u);
    PartFields(raw, parse);
  }

  /**
   * `taskSchema.parse`: the body is accepted exactly when every field rule holds; the
   * accepted value carries the body's own fields; a rejection names each failing field and
   * only those.
   */
  function ParseTask(raw: RawTask, parse: string -> Option<int>): (r: Result<ValidTask>)
    ensures r.Ok? <==> TaskValid(raw, parse)
    ensures r.Ok? ==>
      Some(r.value.title) == raw.title && r.value.description == raw.description &&
      Some(PriorityName(r.value.priority)) == raw.priority && Some(StatusName(r.value.status)) == raw.status &&
      r.value.dueDate == raw.dueDate
    ensures r.Invalid? ==> |r.issues| > 0 && FieldsOf(r.issues) == FailingFields(raw, parse)
  {
    var issues := TaskIssues(raw, parse);
    TaskIssuesReportFields(raw, parse);
    if issues == [] then
      Ok(ValidTask(raw.title.value, raw.description, ParsePriority(raw.priority.value).value,
                   ParseStatus(raw.status.value).value, raw.dueDate))
    else
      Invalid(issues)
  }

  // ----- registerSchema (lines 3-7) -----

  datatype RawRegister = RawRegister(name: Option<string>, email: Option<string>, password: Option<string>)

  datatype ValidRegister = ValidRegister(name: string, email: string, password: string)

  predicate RegisterValid(raw: RawRegister, isEmail: string -> bool) {
    raw.name.Some? && Text.Utf16Len(raw.name.value) >= 2 &&
    raw.email.Some? && isEmail(raw.email.value) &&
    raw.password.Some? && Text.Utf16Len(raw.password.value) >= 6
  }

  function RequiredString(f: Field, v: Option<string>, ok: string -> bool, message: string): seq<Issue> {
    if v.None? then [Issue(f, RequiredMessage)]
    else if !ok(v.value) then [Issue(f, message)]
    else []
  }

  function RegisterIssues(raw: RawRegister, isEmail: string -> bool): seq<Issue> {
    RequiredString(Name, raw.name, s => Text.Utf16Len(s) >= 2, "Name must be at least 2 characters") +
    RequiredString(Email, raw.email, isEmail, "Invalid email") +
    RequiredString(Password, raw.password, s => Text.Utf16Len(s) >= 6, "Password must be at least 6 characters")
  }

  /**
   * `registerSchema.parse`: accepted exactly when the name has at least 2 characters, the
   * e-mail is well formed (`isEmail` stands for Zod's e-mail pattern) and the password has at
   * least 6 characters; the first issue belongs to the first failing field.
   */
  function ParseRegister(raw: RawRegister, isEmail: string -> bool): (r: Result<ValidRegister>)
    ensures r.Ok? <==> RegisterValid(raw, isEmail)
    ensures r.Ok? ==> r.value == ValidRegister(raw.name.value, raw.email.value, raw.password.value)
    ensures r.Invalid? ==> |r.issues| > 0 && r.issues[0].message != ""
    ensures r.Invalid? && (raw.name.None? || Text.Utf16Len(raw.name.value) < 2) ==> r.issues[0].field == Name
  {
    var issues := RegisterIssues(raw, isEmail);
    if issues == [] then Ok(ValidRegister(raw.name.value, raw.email.value, raw.password.value))
    else Invalid(issues)
  }

  // ----- loginSchema (lines 9-12) -----

  datatype RawLogin = RawLogin(email: Option<string>, password: Option<string>)

  /** `loginSchema` accepts a well-formed e-mail and a non-empty password, and nothing else. */
  function LoginIssues(raw: RawLogin, isEmail: string -> bool): (issues: seq<Issue>)
    ensures issues == [] <==>
      raw.email.Some? && isEmail(raw.email.value) && raw.password.Some? && Text.Utf16Len(raw.password.value) >= 1
  {
    RequiredString(Email, raw.email, isEmail, "Invalid email") +
    RequiredString(Password, raw.password, s => Text.Utf16Len(s) >= 1, "String must contain at least 1 character(s)")
  }
}
