/**
 * The records the application stores and exchanges. Dates are integer millisecond
 * timestamps; ids are the strings ObjectIds print as.
 */
module Domain {
  import opened Wrappers

  datatype Priority = Low | Medium | High

  datatype Status = Pending | InProgress | Completed

  /** The string each priority is written as in JSON and in the database. */
  function PriorityName(p: Priority): string {
    match p
    case Low => "low"
    case Medium => "medium"
    case High => "high"
  }

  function StatusName(s: Status): string {
    match s
    case Pending => "pending"
    case InProgress => "in-progress"
    case Completed => "completed"
  }

  /** Membership of the enumeration `['low', 'medium', 'high']`. */
  function ParsePriority(s: string): (r: Option<Priority>)
    ensures r.Some? ==> PriorityName(r.value) == s
  {
    if s == "low" then Some(Low)
    else if s == "medium" then Some(Medium)
    else if s == "high" then Some(High)
    else None
  }

  /** Membership of the enumeration `['pending', 'in-progress', 'completed']`. */
  function ParseStatus(s: string): (r: Option<Status>)
    ensures r.Some? ==> StatusName(r.value) == s
  {
    if s == "pending" then Some(Pending)
    else if s == "in-progress" then Some(InProgress)
    else if s == "completed" then Some(Completed)
    else None
  }

  /** Every priority name parses back to that priority, and only names parse. */
  lemma PriorityRoundTrip(p: Priority, s: string)
    ensures ParsePriority(PriorityName(p)) == Some(p)
    ensures ParsePriority(s).Some? <==> s in {"low", "medium", "high"}
  {
  }

  lemma StatusRoundTrip(st: Status, s: string)
    ensures ParseStatus(StatusName(st)) == Some(st)
    ensures ParseStatus(s).Some? <==> s in {"pending", "in-progress", "completed"}
  {
  }

  /** A stored task as the database holds it and as the API returns it. */
  datatype Task = Task(
    id: string,
    userId: string,
    title: string,
    description: Option<string>,
    priority: Priority,
    status: Status,
    dueDate: Option<int>,
    createdAt: int,
    updatedAt: int)

  /** A stored user; `password` is the stored hash. */
  datatype User = User(
    id: string,
    name: string,
    email: string,
    password: Option<string>,
    image: Option<string>)

  /** JavaScript truthiness of an optional string: present and not empty. */
  predicate Truthy(s: Option<string>) {
    s.Some? && s.value != ""
  }

  /** `users[i]` is the first user whose e-mail is `email`. */
  predicate IsFirstWithEmail(users: seq<User>, i: int, email: string) {
    0 <= i < |users| && users[i].email == email && forall j :: 0 <= j < i ==> users[j].email != email
  }

  /**
   * `User.findOne({ email })`: the first user, in collection order, whose e-mail equals
   * `email` exactly, or `None` when there is none.
   */
  function FindByEmail(users: seq<User>, email: string): (r: Option<User>)
    ensures r.None? <==> forall i :: 0 <= i < |users| ==> users[i].email != email
    ensures r.Some? ==> r.value.email == email && exists i :: IsFirstWithEmail(users, i, email) && users[i] == r.value
  {
    if users == [] then None
    else if users[0].email == email then Some(users[0])
    else
      var r := FindByEmail(users[1..], email);
      assert forall i :: 0 < i < |users| ==> users[i] == users[1..][i - 1];
      if r.Some? then
        var i :| IsFirstWithEmail(users[1..], i, email) && users[1..][i] == r.value;
        assert IsFirstWithEmail(users, i + 1, email);
        r
      else r
  }
}
