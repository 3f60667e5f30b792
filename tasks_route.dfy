/**
 * `GET` and `POST` of /api/tasks (src/app/api/tasks/route.ts) over a task collection held
 * as a sequence. `session` is `session?.user?.id`; `parse` stands for `new Date(s)` /
 * `Date.parse`; `dbUp` says whether connecting to and writing the database succeed.
 */
module TasksRoute {
  import opened Wrappers
  import opened Text
  import opened Seqs
  import opened Domain
  import opened Schemas
  import opened Http
  import opened TaskModel

  const Unauthorized := Response(401, ErrorBody("Unauthorized"))
  const ServerError := Response(500, ErrorBody("Server error"))

  /**
   * The key of `sort({ dueDate: 1, createdAt: -1 })`: due date ascending, then newest
   * first. Undated tasks are given a leading 0 so that they come first, as BSON orders a
   * missing field before any date; no contract below depends on where they go.
   */
  function GetKey(t: Task): seq<int> {
    if t.dueDate.None? then [0, 0, -t.createdAt] else [1, t.dueDate.value, -t.createdAt]
  }

  /** Among dated tasks: earlier due date first, and on equal due dates the newer one first. */
  predicate DatedOrder(ts: seq<Task>) {
    forall i, j :: 0 <= i < j < |ts| && ts[i].dueDate.Some? && ts[j].dueDate.Some? ==>
      ts[i].dueDate.value < ts[j].dueDate.value ||
      (ts[i].dueDate.value == ts[j].dueDate.value && ts[i].createdAt >= ts[j].createdAt)
  }

  lemma SortedByGetKeyIsDatedOrder(ts: seq<Task>)
    requires SortedBy(ts, GetKey)
    ensures DatedOrder(ts)
  {
    forall i, j | 0 <= i < j < |ts| && ts[i].dueDate.Some? && ts[j].dueDate.Some?
      ensures ts[i].dueDate.value < ts[j].dueDate.value ||
        (ts[i].dueDate.value == ts[j].dueDate.value && ts[i].createdAt >= ts[j].createdAt)
    {
      var a, b := GetKey(ts[i]), GetKey(ts[j]);
      assert LexLe(a, b);
      LexLeUnfold(a, b);
      LexLeUnfold(a[1..], b[1..]);
      LexLeUnfold(a[1..][1..], b[1..][1..]);
    }
  }

  /**
   * `GET`: without a session user id, 401 "Unauthorized"; otherwise 200 with exactly the
   * caller's tasks, each as often as stored, dated ones in due-date order.
   */
  function Get(session: Option<string>, store: seq<Task>): (r: Response)
    ensures !Truthy(session) ==> r == Unauthorized
    ensures Truthy(session) ==> r.status == 200 && r.body.TaskListBody?
    ensures Truthy(session) ==> forall t :: t in r.body.tasks <==> t in store && t.userId == session.value
    ensures Truthy(session) ==>
      forall t :: multiset(r.body.tasks)[t] == if t.userId == session.value then multiset(store)[t] else 0
    ensures Truthy(session) ==> DatedOrder(r.body.tasks)
  {
    if !Truthy(session) then Unauthorized
    else
      var owned := Filter(store, (t: Task) => t.userId == session.value);
      var sorted := SortByKey(owned, GetKey);
      SortedByGetKeyIsDatedOrder(sorted);
      Response(200, TaskListBody(sorted))
  }

  /** The values `Task.create` receives: the validated body, the owner, the converted due date. */
  function CreateInput(v: ValidTask, owner: string, parse: string -> Option<int>): DocInput {
    DocInput(Some(owner), Some(v.title), v.description, Some(PriorityName(v.priority)),
             Some(StatusName(v.status)),
             if v.dueDate.Some? && v.dueDate.value != "" then parse(v.dueDate.value) else None)
  }

  /**
   * A body that passed the schema fails the model's validators exactly when its title is
   * only white space: trimming never lengthens, and the enumerations agree.
   */
  lemma SchemaThenModel(raw: RawTask, owner: string, id: string, now: int, parse: string -> Option<int>)
    requires ParseTask(raw, parse).Ok?
    ensures Conforms(Prepare(CreateInput(ParseTask(raw, parse).value, owner, parse), id, now)) <==>
      Trim(raw.title.value) != ""
  {
    var v := ParseTask(raw, parse).value;
    PriorityRoundTrip(v.priority, "");
    StatusRoundTrip(v.status, "");
  }

  /**
   * The request errors that are not a `ZodError` and so answer 500: an unreadable body, a
   * database that cannot be reached, or a valid body whose title is blank once trimmed.
   */
  predicate PostFails(body: Option<RawTask>, dbUp: bool, parse: string -> Option<int>) {
    body.None? || (TaskValid(body.value, parse) && (!dbUp || Trim(body.value.title.value) == ""))
  }

  datatype PostResult = PostResult(response: Response, created: Option<Task>)

  /**
   * `POST`: the auth gate, then the body, then `taskSchema`, then the database. Only a
   * request that passes every gate creates a task; that task is the trimmed body, owned by
   * the caller, stamped `now`, and it is the 201 response's body.
   */
  function Post(session: Option<string>, body: Option<RawTask>, dbUp: bool, newId: string, now: int,
                parse: string -> Option<int>): (r: PostResult)
    ensures !Truthy(session) ==> r == PostResult(Unauthorized, None)
    ensures Truthy(session) && body.Some? && ParseTask(body.value, parse).Invalid? ==>
      r == PostResult(Response(400, ValidationBody("Validation failed", ParseTask(body.value, parse).issues)), None)
    ensures r.created.Some? <==>
      Truthy(session) && body.Some? && TaskValid(body.value, parse) && dbUp && Trim(body.value.title.value) != ""
    ensures r.created.Some? ==> r.response == Response(201, TaskBody(r.created.value))
    ensures r.created.None? ==> r.response in {Unauthorized, ServerError} || r.response.status == 400
    ensures r.created.Some? ==>
      var t, raw := r.created.value, body.value;
      t.id == newId && t.userId == session.value && t.title == Trim(raw.title.value) &&
      t.description == TrimOpt(raw.description) &&
      Some(PriorityName(t.priority)) == raw.priority && Some(StatusName(t.status)) == raw.status &&
      t.dueDate == (if raw.dueDate.Some? && raw.dueDate.value != "" then parse(raw.dueDate.value) else None) &&
      t.dueDate.Some? == (raw.dueDate.Some? && raw.dueDate.value != "") &&
      t.createdAt == now && t.updatedAt == now
  {
    if !Truthy(session) then PostResult(Unauthorized, None)
    else if body.None? then PostResult(ServerError, None)
    else
      var parsed := ParseTask(body.value, parse);
      if parsed.Invalid? then PostResult(Response(400, ValidationBody("Validation failed", parsed.issues)), None)
      else if !dbUp then PostResult(ServerError, None)
      else
        var d := Prepare(CreateInput(parsed.value, session.value, parse), newId, now);
        SchemaThenModel(body.value, session.value, newId, now, parse);
        if !Conforms(d) then PostResult(ServerError, None)
        else
          var t := ToTask(d.(updatedAt := now));
          PostResult(Response(201, TaskBody(t)), Some(t))
  }

  /**
   * The three failures that are not a `ZodError` land in the `catch` as 500 "Server error":
   * an unreadable body, a database that cannot be reached, and a valid body whose title the
   * model's `trim` leaves empty, which the model's `required` then rejects.
   */
  lemma PostServerErrors(session: Option<string>, body: Option<RawTask>, dbUp: bool, newId: string, now: int,
                         parse: string -> Option<int>)
    requires Truthy(session) && PostFails(body, dbUp, parse)
    ensures Post(session, body, dbUp, newId, now, parse) == PostResult(ServerError, None)
  {
  }

  predicate IdsDistinct(ts: seq<Task>) {
    forall i, j :: 0 <= i < j < |ts| ==> ts[i].id != ts[j].id
  }

  lemma AppendFreshId(ts: seq<Task>, t: Task)
    requires IdsDistinct(ts) && forall u :: u in ts ==> u.id != t.id
    ensures IdsDistinct(ts + [t])
  {
    var r := ts + [t];
    forall i, j | 0 <= i < j < |r| ensures r[i].id != r[j].id {
      if j == |ts| { assert r[i] in ts; } else { assert r[i] == ts[i] && r[j] == ts[j]; }
    }
  }

  /** The task collection; ObjectIds are unique. */
  class TaskCollection {
    var tasks: seq<Task>

    ghost predicate Valid()
      reads this
    {
      IdsDistinct(tasks)
    }

    constructor ()
      ensures Valid() && tasks == []
    {
      tasks := [];
    }

    /**
     * The `POST` handler run against this collection: the response is `Post`'s, and the
     * collection gains the created task and nothing else. `newId` is the fresh ObjectId.
     */
    method HandlePost(session: Option<string>, body: Option<RawTask>, dbUp: bool, newId: string, now: int,
                      parse: string -> Option<int>) returns (resp: Response)
      requires Valid()
      requires forall t :: t in tasks ==> t.id != newId
      modifies this
      ensures Valid()
      ensures resp == Post(session, body, dbUp, newId, now, parse).response
      ensures var c := Post(session, body, dbUp, newId, now, parse).created;
        tasks == old(tasks) + (if c.Some? then [c.value] else [])
    {
      ghost var spec := Post(session, body, dbUp, newId, now, parse);
      if !Truthy(session) {
        return Unauthorized;
      }
      if body.None? {
        assert spec == PostResult(ServerError, None);
        return ServerError;
      }
      var parsed := ParseTask(body.value, parse);
      if parsed.Invalid? {
        return Response(400, ValidationBody("Validation failed", parsed.issues));
      }
      if !dbUp {
        assert spec == PostResult(ServerError, None);
        return ServerError;
      }
      ghost var d := Prepare(CreateInput(parsed.value, session.value, parse), newId, now);
      var doc := new TaskDocument(CreateInput(parsed.value, session.value, parse), newId, now);
      var ok := doc.Save(now);
      if !ok {
        assert spec == PostResult(ServerError, None);
        return ServerError;
      }
      assert doc.Fields() == d.(updatedAt := now);
      var t := ToTask(doc.Fields());
      assert spec == PostResult(Response(201, TaskBody(t)), Some(t));
      AppendFreshId(tasks, t);
      tasks := tasks + [t];
      resp := Response(201, TaskBody(t));
    }
  }

  /** A created task is returned by the next `GET` of the same user. */
  lemma CreatedTaskIsListed(store: seq<Task>, session: Option<string>, body: Option<RawTask>, dbUp: bool,
                            newId: string, now: int, parse: string -> Option<int>)
    requires Post(session, body, dbUp, newId, now, parse).created.Some?
    ensures var t := Post(session, body, dbUp, newId, now, parse).created.value;
      t in Get(session, store + [t]).body.tasks
  {
  }

  /** Another user's tasks are never listed. */
  lemma OthersTasksHidden(store: seq<Task>, session: Option<string>, t: Task)
    requires Truthy(session) && t.userId != session.value
    ensures t !in Get(session, store).body.tasks
  {
  }
}
