# Task manager core, modelled in Dafny

A model of the deterministic core of a small Next.js task manager. Users register with a
name, an e-mail address and a password. They sign in through a credentials provider and
then keep a private list of tasks. Each task has a title, an optional description, a
priority, a status and an optional due date. The model covers:

- the validation schemas shared by server and client, and the stricter schema of the task dialog;
- the stored task record: trimming, defaults, limits, and the `updatedAt` stamp on save;
- the `/api/tasks` collection route (`GET` lists the caller's tasks, `POST` creates one) and
  the `/api/register` route, each as a transition over a collection held as a sequence;
- the two credential-authorisation variants and their token and session callbacks;
- the route guard and its matcher;
- the dashboard's list view: search, status, priority and due-day filters, the four-key
  comparator, eight tasks per page, and the page state;
- the page-number window of the pagination control and its buttons;
- what a task card shows (overdue rule, colour tables, badge texts) and when a deletion
  refreshes the list.

Everything the code takes from the outside world is a parameter:

- the clock is `now` (milliseconds);
- `parse` stands for `Date.parse` / `new Date(s)`, with `None` as the invalid date;
- `format` stands for `format(d, "yyyy-MM-dd")`;
- `isEmail` stands for Zod's e-mail check;
- `hash` and `compare` stand for bcrypt;
- `dbUp` says whether connecting to and writing the database succeed;
- a fresh ObjectId is `newId`.

Modules follow the source files:

| module | source |
|---|---|
| `Schemas` | src/lib/schemas.ts |
| `TaskModel` | src/models/Task.ts |
| `TasksRoute` | src/app/api/tasks/route.ts |
| `RegisterRoute` | src/app/api/register/route.ts |
| `Auth` | src/auth.ts |
| `AuthConfig` | src/auth.config.ts |
| `Proxy` | src/proxy.ts |
| `Pagination` | src/components/Pagination.tsx |
| `TaskCard` | src/components/TaskCard.tsx |
| `TaskForm` | src/components/TaskForm.tsx |
| `Dashboard` | src/app/dashboard/page.tsx |

Supporting modules:

- `Wrappers` (Option) and `Text` (ASCII case mapping, `includes`, JavaScript `trim`, `split`/`join`, and JavaScript's `length` in UTF-16 code units) are helpers.
- `Seqs` holds `filter` and a stable sort by a lexicographic integer key.
- `Domain` holds the enumerations and records.
- `Http` holds JSON responses.
- `Identity` holds credentials, the token and the session.
- `EndToEnd` states properties that span modules.

Code that changes state in place is written as classes with `modifies` clauses:

- the task document and its `save` (`TaskModel.TaskDocument`);
- the task and user collections (`TasksRoute.TaskCollection`, `RegisterRoute.UserCollection`);
- the JWT token and the session (`Identity.Token`, `Identity.Session`, changed by the callbacks);
- the dialog state (`TaskForm.FormState`);
- the dashboard state (`Dashboard.DashboardState`).

Each state-changing method is tied to a pure function of its inputs. The properties are proved about those functions.

The dashboard code and its own comment differ in one place, and the model follows the code.
The comment at src/app/dashboard/page.tsx:99 reads "Sort: Overdue first → High priority →
Due date → Newest". In the comparator (src/app/dashboard/page.tsx:112-114), two dated tasks
return the difference of their due dates. So `createdAt` only separates two undated tasks,
and two tasks due at the same instant tie (`Dashboard.SameDueDateTies`). For the `GET`
query, the position of tasks without a due date is not stated: BSON sorts a missing date
first, so the contracts order only the dated tasks.

All length limits (Zod's `min`/`max`, mongoose's `maxlength`) count UTF-16 code units, as
JavaScript's `length` does (`Text.Utf16Len`): a character beyond U+FFFF counts twice.

## Model

| member | source | states |
|---|---|---|
| Schemas.ParseTask | src/lib/schemas.ts:14-22 | a task body is accepted exactly when the title has 1..100 UTF-16 code units, the description (if any) at most 500, priority and status are enumeration values and the due date is absent, empty or readable; the result copies the body; a rejection is non-empty and names exactly the failing fields |
| Schemas.TaskIssuesReportFields | src/lib/schemas.ts:14-22 | the fields named by the issue list are exactly the fields whose rule fails |
| Schemas.PartFields | src/lib/schemas.ts:15-21 | each field's check reports its own field exactly when that field's rule fails |
| Schemas.FirstMessageFor | src/lib/schemas.ts:1-22 | the message shown for a field exists exactly when an issue names that field, and is that issue's message |
| Schemas.ParseRegister | src/lib/schemas.ts:3-7 | a registration is accepted exactly when the name has at least 2 UTF-16 code units, the e-mail is well formed and the password has at least 6; the accepted value is the body's; the first issue message is non-empty and belongs to the name when the name fails |
| Schemas.LoginIssues | src/lib/schemas.ts:9-12 | no issue exactly when the e-mail is well formed and the password non-empty |
| Domain.ParsePriority | src/lib/schemas.ts:17 | an accepted string is the name of the priority it parses to |
| Domain.PriorityRoundTrip | src/lib/schemas.ts:17 | a string parses as a priority exactly when it is "low", "medium" or "high", and a priority's name parses back to it |
| Domain.ParseStatus | src/lib/schemas.ts:18 | an accepted string is the name of the status it parses to |
| Domain.StatusRoundTrip | src/lib/schemas.ts:18 | a string parses as a status exactly when it is "pending", "in-progress" or "completed", and a status's name parses back to it |
| Domain.FindByEmail | src/app/api/register/route.ts:15 | `findOne({ email })`: none exactly when no user has the e-mail, otherwise the first user with it |
| Text.Trim | src/models/Task.ts:12 | `trim` returns a slice of its input outside which there is only white space, whose own ends are not white space, and which is empty exactly for an all-space input |
| TaskModel.TrimOpt | src/models/Task.ts:12 | a present value becomes `Trim` of it and an absent one stays absent; the result is already trimmed and never longer in UTF-16 code units |
| TaskModel.Prepare | src/models/Task.ts:3-35 | building a document stores `TrimOpt` of the given title and description, defaults priority to "medium" and status to "pending", and stamps both timestamps with the creation time |
| TaskModel.ToTask | src/models/Task.ts:9-29 | a conforming document is a task with a title of 1..100 UTF-16 code units, a description of at most 500 and the document's own values |
| TaskModel.DefaultsApply | src/models/Task.ts:20-29 | with no priority and no status given, the stored task is medium and pending |
| TaskModel.Conforms | src/models/Task.ts:3-35 | the record's validators: an owner, a title non-empty and at most 100 UTF-16 code units, a description of at most 500, and priority and status in their enumerations (used by `Save` and `ToTask`) |
| TaskModel.BlankTitleRejected | src/models/Task.ts:9-14 | a title of white space only fails `required` after trimming |
| TaskModel.TaskDocument.constructor | src/models/Task.ts:3-35 | a new document holds the prepared fields |
| TaskModel.TaskDocument.Save | src/models/Task.ts:38-40 | saving succeeds exactly when the document conforms, and then changes only `updatedAt`, to now; a failed save changes nothing |
| TasksRoute.Get | src/app/api/tasks/route.ts:7-16 | no session user id gives 401 "Unauthorized"; otherwise 200 with exactly the caller's tasks, each as often as stored, dated tasks by due date ascending and, on equal dates, newest first |
| TasksRoute.GetKey | src/app/api/tasks/route.ts:14 | the sort key of `{ dueDate: 1, createdAt: -1 }`: undated before dated, then due date ascending, then creation time descending (`SortedByGetKeyIsDatedOrder` states its meaning) |
| TasksRoute.SortedByGetKeyIsDatedOrder | src/app/api/tasks/route.ts:14 | a list sorted by `{ dueDate: 1, createdAt: -1 }` is in due-date order among dated tasks, newest first on equal dates |
| TasksRoute.CreateInput | src/app/api/tasks/route.ts:31-35 | what `Task.create` receives: the validated body with the caller as owner and a non-empty due-date string parsed into a date (`Post` states the task that results) |
| TasksRoute.SchemaThenModel | src/app/api/tasks/route.ts:28-35 | a body that passed the schema fails the record's validators exactly when its title is only white space |
| TasksRoute.Post | src/app/api/tasks/route.ts:18-48 | 401 without a session user; 400 "Validation failed" with the schema's issues; a task is created exactly when the session, body, schema, database and trimmed title all pass; the created task is the trimmed body owned by the caller, stamped now, and is the 201 body; every other outcome is 401, 500 "Server error" or 400 |
| TasksRoute.PostServerErrors | src/app/api/tasks/route.ts:24-47 | with a session user, an unreadable body, a database that is down, or a valid body whose trimmed title is blank answers exactly 500 "Server error" and creates nothing |
| TasksRoute.AppendFreshId | src/app/api/tasks/route.ts:31-35 | adding a task with a fresh id keeps ids distinct |
| TasksRoute.TaskCollection.HandlePost | src/app/api/tasks/route.ts:18-48 | the handler answers what `Post` answers, and the collection gains the created task and nothing else, keeping ids distinct |
| TasksRoute.CreatedTaskIsListed | src/app/api/tasks/route.ts:7-35 | a created task is listed by the next `GET` of the same user |
| TasksRoute.OthersTasksHidden | src/app/api/tasks/route.ts:14 | another user's task is never listed |
| RegisterRoute.Register | src/app/api/register/route.ts:8-27 | an unreadable body gives 400 "Registration failed"; a schema failure gives 400 with the first issue message; a user is created exactly when the body is valid, the database is up and no user has the e-mail; a taken e-mail gives 400 "Email already exists"; a valid body with the database down gives 400 "Registration failed"; the created user stores the hash of the password and the response is 201 "User registered" |
| RegisterRoute.RegisterKeepsEmailsDistinct | src/app/api/register/route.ts:15-22 | registration never gives two users the same e-mail |
| RegisterRoute.DuplicateCheckIsExact | src/app/api/register/route.ts:15 | the duplicate check compares e-mails exactly: "A@x.io" registers beside "a@x.io" |
| RegisterRoute.UserCollection.constructor | src/app/api/register/route.ts:22 | the collection starts empty |
| RegisterRoute.UserCollection.HandleRegister | src/app/api/register/route.ts:8-27 | the handler answers what `Register` answers; the collection gains the created user and nothing else, and distinct e-mails stay distinct |
| Auth.Authorize | src/auth.ts:16-34 | missing or empty credentials, or an unknown e-mail, give no user; a user is returned exactly when the first user with that e-mail has a password that verifies, and the result copies its id, name, e-mail and image |
| Auth.FirstIsUnique | src/auth.ts:20 | the first user with an e-mail is unique |
| Auth.Jwt | src/auth.ts:43-48 | a signing-in user's id is copied into the token, otherwise the token is unchanged |
| Auth.SessionCallback | src/auth.ts:49-54 | the token id is copied only when the session has a user and the id is set |
| AuthConfig.Authorize | src/auth.config.ts:16-29 | missing or empty credentials, or no user with the lower-cased e-mail, give no user; a user is returned exactly when the first user whose e-mail equals the lower-cased typed e-mail has a hash that verifies; the result copies its id, name and e-mail, never an image |
| AuthConfig.AgreesOnLowerCaseEmail | src/auth.config.ts:20 | for a lower-case e-mail both variants answer alike, up to the image |
| AuthConfig.MixedCaseEmailNeverMatches | src/auth.config.ts:20 | for any collection, an e-mail typed with a capital letter never signs in the user stored under exactly that e-mail: whoever is returned has another e-mail |
| AuthConfig.Jwt | src/auth.config.ts:38-41 | a signing-in user's id is copied into the token |
| AuthConfig.SessionCallback | src/auth.config.ts:42-45 | with the token id set the id is written to the session's user, which throws when there is no user; otherwise nothing changes |
| Identity.Token.constructor | src/auth.ts:43 | a token starts with the given id |
| Identity.Session.constructor | src/auth.ts:49 | a session starts with the given user and id |
| Proxy.Handle | src/proxy.ts:5-24 | redirect to /login exactly for an anonymous path under "/dashboard", to /dashboard exactly for a signed-in "/login", otherwise continue |
| Proxy.MatcherRuns | src/proxy.ts:26-28 | the matcher `["/dashboard/:path*", "/login"]`: /dashboard, any path below it, and /login (`MatchedDashboardPaths` and `UnmatchedPrefixContinues` state its edges) |
| Proxy.Guard | src/proxy.ts:26-28 | paths outside the matcher always continue; matched paths get `Handle`'s answer |
| Proxy.RedirectsExclusive | src/proxy.ts:13-20 | the two redirect conditions never hold together |
| Proxy.MatchedDashboardPaths | src/proxy.ts:26-28 | a matched path starting with "/dashboard" is /dashboard or below it |
| Proxy.UnmatchedPrefixContinues | src/proxy.ts:13-27 | "/dashboards" starts with "/dashboard" but is not matched, so it is never guarded |
| Proxy.NoRedirectLoop | src/proxy.ts:13-20 | the target of a redirect is never redirected again |
| Pagination.Range | src/components/Pagination.tsx:23 | the buttons lo..hi, in order |
| Pagination.Window | src/components/Pagination.tsx:18-48 | the list of buttons `getPageNumbers` returns, as a function of the current page and the page count (`WindowShape`, `WindowNumbers` and `EllipsisPlacement` state its shape) |
| Pagination.PageNumbers | src/components/Pagination.tsx:18-48 | the loop-built list equals the window specification |
| Pagination.WindowShape | src/components/Pagination.tsx:18-48 | page numbers strictly increase, lie in 1..total, at most seven buttons; with at most five pages all pages and no ellipsis; otherwise first page 1, last page total, one ellipsis per side whose condition holds |
| Pagination.WindowNumbers | src/components/Pagination.tsx:28-45 | the numbers shown are 1, the window around the current page, and the last page |
| Pagination.EllipsisPlacement | src/components/Pagination.tsx:31-42 | the second button is an ellipsis exactly when the page is past 3, the second-to-last exactly when it is before the third-to-last |
| Pagination.CurrentPageShown | src/components/Pagination.tsx:34-39 | a current page within range always has a button |
| Pagination.Previous | src/components/Pagination.tsx:57-58 | previous is disabled exactly on page 1 and otherwise goes one page back |
| Pagination.Next | src/components/Pagination.tsx:80-81 | next is disabled exactly on the last page and otherwise goes one page on |
| Pagination.Click | src/components/Pagination.tsx:70-71 | a numbered button goes to its page; an ellipsis does nothing |
| Pagination.NavigationStaysInRange | src/components/Pagination.tsx:57-81 | from a page within range every enabled button leads to a page within range |
| TaskCard.IsOverdue | src/components/TaskCard.tsx:32 | dated, not completed, and due before now (`OverdueBadge` states it case by case) |
| TaskCard.OverdueBadge | src/components/TaskCard.tsx:32 | completed and undated tasks are never overdue; otherwise overdue exactly when the due date is past |
| TaskCard.PriorityColor | src/components/TaskCard.tsx:34-38 | the priority badge classes: red for high, amber for medium, green for low |
| TaskCard.StatusColor | src/components/TaskCard.tsx:40-44 | the status badge classes: grey for pending, blue for in progress, dark green for completed |
| TaskCard.ColorTablesInjective | src/components/TaskCard.tsx:34-44 | each priority and each status has its own badge class |
| TaskCard.PriorityLabel | src/components/TaskCard.tsx:127 | the priority badge is the name with each character upper-cased, same length, no lower-case letter |
| TaskCard.PriorityLabels | src/components/TaskCard.tsx:127 | the badges read "LOW", "MEDIUM", "HIGH" |
| TaskCard.StatusLabel | src/components/TaskCard.tsx:131 | the status name split at "-", each word capitalised, joined with spaces (the three lemmas below give its values) |
| TaskCard.StatusLabelPending | src/components/TaskCard.tsx:131 | the pending badge reads "Pending" |
| TaskCard.StatusLabelInProgress | src/components/TaskCard.tsx:131 | the in-progress badge reads "In Progress" |
| TaskCard.StatusLabelCompleted | src/components/TaskCard.tsx:131 | the completed badge reads "Completed" |
| TaskCard.DeleteOutcome | src/components/TaskCard.tsx:46-56 | the list is refreshed exactly after an ok response, with the success toast; every other outcome shows "Failed to delete task" |
| TaskForm.ParseForm | src/components/TaskForm.tsx:28-36 | the form accepts exactly when the title has 3..100 UTF-16 code units, the base rules hold for description, priority and status, and the due date is non-empty, readable and in the future; the result copies the values; a rejection names exactly the failing fields |
| TaskForm.FormAccepts | src/components/TaskForm.tsx:28-36 | the dialog schema's rules: the title rule 3..100, the base rules for description, priority and status, and a due date that is non-empty, readable and after now (`ParseForm` is accepted exactly when it holds) |
| TaskForm.FormIssuesReportFields | src/components/TaskForm.tsx:28-36 | the fields named by the form's issues are exactly its failing fields |
| TaskForm.FormRefinesTaskSchema | src/components/TaskForm.tsx:28-36 | whatever the form accepts, the base schema accepts with the same value; a short title or a missing due date is refused by the form |
| TaskForm.DueDateMessage | src/components/TaskForm.tsx:32-35 | the due-date message is "Required" when absent, "Due date is required" when empty, "Invalid date format" when unreadable, "Due date must be in the future" when not after now, and none otherwise |
| TaskForm.Defaults | src/components/TaskForm.tsx:52-60 | a new form starts with "", "", "medium", "pending", ""; an edit form copies the task, with a missing or empty description as "" and the due date formatted |
| TaskForm.NewDefaultsRejected | src/components/TaskForm.tsx:52-60 | a fresh form is refused, with "Title must be at least 3 characters" and "Due date is required", while its priority and status are valid |
| TaskForm.Target | src/components/TaskForm.tsx:68-69 | editing sends PUT to /api/tasks/<id>, creating sends POST to /api/tasks |
| TaskForm.TargetIdentifiesTask | src/components/TaskForm.tsx:68-69 | an edit never targets the collection and its URL determines the task id |
| TaskForm.SubmitEnabled | src/components/TaskForm.tsx:63 | the submit button is enabled when the form is valid, a date is picked and no submit is running |
| TaskForm.SubmitBody | src/components/TaskForm.tsx:75-78 | the request body: the form's values with the picked date formatted as the due date, or no due date when none is picked |
| TaskForm.EnabledSubmitReachesServer | src/components/TaskForm.tsx:63-78 | an enabled submit passes the server schema when the formatted date is readable, and creates a task exactly when the title is not blank |
| TaskForm.FailureMessage | src/components/TaskForm.tsx:84-89 | the message is never empty: a non-empty error first, then a non-empty first detail, and "Failed to save task" exactly when neither is there |
| TaskForm.RouteFailuresShowError | src/components/TaskForm.tsx:84-89 | against the collection route (`TasksRoute.Post`) every refusal shows its error ("Unauthorized", "Server error" or "Validation failed"), never a detail |
| TaskForm.FormState.constructor | src/components/TaskForm.tsx:45-61 | the dialog starts closed, with the task's due date picked and the defaults as values |
| TaskForm.FormState.SetOpen | src/components/TaskForm.tsx:105 | the dialog opens or closes |
| TaskForm.FormState.Type | src/components/TaskForm.tsx:127-149 | typing replaces title and description only |
| TaskForm.FormState.Choose | src/components/TaskForm.tsx:157-176 | the selects set priority and status to schema values only |
| TaskForm.FormState.SelectDate | src/components/TaskForm.tsx:211-217 | a past day changes nothing; otherwise the date is stored and mirrored as a string |
| TaskForm.FormState.Submit | src/components/TaskForm.tsx:65-102 | refused values send nothing; accepted values are sent to the target; an ok reply toasts success, resets the values to the defaults, closes the dialog and notifies the parent; another reply toasts the failure message and changes nothing; the picked date is never reset |
| Dashboard.SearchOk | src/app/dashboard/page.tsx:72-79 | an empty query keeps every task; otherwise the lower-cased title or description contains the lower-cased query |
| Dashboard.StatusOk | src/app/dashboard/page.tsx:82-84 | "all" keeps every task; otherwise the status is the chosen one |
| Dashboard.PriorityOk | src/app/dashboard/page.tsx:87-89 | "all" keeps every task; otherwise the priority is the chosen one |
| Dashboard.DueOk | src/app/dashboard/page.tsx:92-97 | no chosen day keeps every task; otherwise the task is dated and falls on the chosen day as `format` prints it |
| Dashboard.Keeps | src/app/dashboard/page.tsx:69-97 | a task survives the four filters exactly when it passes each one |
| Dashboard.Compare | src/app/dashboard/page.tsx:100-119 | the comparator: overdue first, then priority rank, then the due-date difference, dated before undated, and newest first among undated (`CompareAgreesWithKey` and `KeyOrder` state its order) |
| Dashboard.CompareAgreesWithKey | src/app/dashboard/page.tsx:100-119 | the comparator says "not after" exactly when the sort key is lexicographically not greater, and it is antisymmetric |
| Dashboard.SameDueDateTies | src/app/dashboard/page.tsx:112-114 | two dated tasks of one class and rank due at the same time tie whatever their creation times |
| Dashboard.KeyOrder | src/app/dashboard/page.tsx:100-119 | key order puts overdue first, then higher priority, then dated before undated, then earlier due date, then newer among undated |
| Dashboard.View | src/app/dashboard/page.tsx:68-122 | the kept tasks, sorted by the comparator's key (`ViewContents`, `OverdueFirst` and `ClassOrder` state what it holds and its order) |
| Dashboard.DeriveView | src/app/dashboard/page.tsx:68-122 | the effect's result is the view: exactly the fetched tasks passing search, status, priority and due-day filters, none more often than fetched, in comparator order |
| Dashboard.ViewContents | src/app/dashboard/page.tsx:69-121 | the view holds exactly the kept tasks, is a sub-multiset of the fetched list, and is in comparator order |
| Dashboard.OverdueFirst | src/app/dashboard/page.tsx:101-105 | every overdue task precedes every task that is not overdue |
| Dashboard.ClassOrder | src/app/dashboard/page.tsx:107-118 | within one overdue class: priority rank, then dated first, then earlier due date, then newest undated first |
| Dashboard.NoFiltersKeepAll | src/app/dashboard/page.tsx:69-97 | with no filter active the view is a permutation of the fetched tasks |
| Dashboard.TotalPages | src/app/dashboard/page.tsx:125 | the page count is the ceiling of n/8 (`ITEMS_PER_PAGE` is 8), zero exactly for no tasks |
| Dashboard.JsSlice | src/app/dashboard/page.tsx:127 | bounds within the array select that segment; a start at or past the end, or an end at or before a non-negative start, selects nothing; the result is one contiguous run of the array |
| Dashboard.JsSliceBounds | src/app/dashboard/page.tsx:127 | a negative bound counts from the end and an end past the array stops at its end |
| Dashboard.JsSliceSubMultiset | src/app/dashboard/page.tsx:127 | a slice holds each element at most as often as the array |
| Dashboard.PageOf | src/app/dashboard/page.tsx:126-127 | page `p` is the slice from `(p - 1) * 8` of length 8 (`PageBounds` and `PagesCoverList` state what it holds) |
| Dashboard.PageBounds | src/app/dashboard/page.tsx:126-127 | a page holds at most 8 tasks; a page within range is the matching non-empty segment; a page past the last is empty |
| Dashboard.PagesCoverList | src/app/dashboard/page.tsx:125-127 | pages 1..TotalPages concatenated give the filtered list back in order |
| Dashboard.SeventeenTasks | src/app/dashboard/page.tsx:125-127 | 17 tasks make 3 pages of 8, 8 and 1 |
| Dashboard.DashboardState.constructor | src/app/dashboard/page.tsx:35-42 | the page starts with no tasks, no filters, page 1, loading |
| Dashboard.DashboardState.Fetched | src/app/dashboard/page.tsx:51-65 | a successful fetch replaces the tasks, goes back to page 1 and re-derives the view; a failure only reports "Failed to load tasks"; loading ends |
| Dashboard.DashboardState.SetFilters | src/app/dashboard/page.tsx:68-122 | a filter change re-derives the view and leaves the page as it was |
| Dashboard.DashboardState.ChangePage | src/app/dashboard/page.tsx:261 | the page changes to the chosen one and the visible rows are that page |
| EndToEnd.RegisteredUserCanSignIn | src/auth.ts:16-34 | a user just created by `RegisterRoute.Register` signs in with the same credentials and gets their new id, name and e-mail |
| EndToEnd.RegisteredUserSignInConfig | src/auth.config.ts:16-29 | through the lower-casing variant this holds for e-mails registered in lower case |
| EndToEnd.DashboardShowsOwnTasks | src/app/dashboard/page.tsx:51-122 | the dashboard's view of the `GET` route's answer holds only the caller's own stored tasks |

## Left out

- Network, database, cookies, JSX rendering and toasts' timing. The server's answers, the database's availability (`dbUp`) and fresh ObjectIds are parameters.
- TasksRoute.Get: a failed `dbConnect` is not caught in `GET`, so Next.js answers 500. The model's `Get` has no database-failure input.
- TasksRoute.Get: the position of undated tasks is not stated. BSON puts a missing date first, and the contracts order only dated tasks.
- Sorting (`result.sort`, the database `sort`) is modelled on a sequence, not in place. Stability is built into `Seqs.SortByKey`, but no contract states it.
- Dashboard.Compare: the `?? 3` fallback for an unknown priority cannot arise, because priorities are a datatype.
- Dates are integers (milliseconds). Time zones, the "PPP" and "dd MMM yyyy" display formats and the calendar widget are left out. The due-day filter compares `format` results.
- Case mapping and `includes` are ASCII only. Unicode case folding is not modelled.
- The issue texts and the register route's use of `error.errors` follow Zod 3. Under Zod 4 `error.errors` is undefined, so a schema failure in register would answer "Registration failed"; that variant is not modelled.
- Non-string JSON values (numbers or objects where strings are expected) are not modelled. Every body key is either absent or a string.
- bcrypt's salt and cost are abstracted into `hash` and `compare`. `EndToEnd.RegisteredUserCanSignIn` assumes `compare(pw, hash(pw))`.
- src/models/User.ts is not part of this model. Users are plain records, and no lower-casing at insertion is assumed.
- src/app/api/tasks/[id]/route.ts (PUT and DELETE of one task), src/lib/db.ts, src/app/page.tsx, src/app/layout.tsx and src/components/TaskList.tsx are not part of this model. A PUT or a DELETE is modelled only from the caller's side, by the request it sends and the reaction to the reply.
- React scheduling is not modelled: effects run synchronously in `DashboardState` and `FormState`. `isSubmitting` is a parameter of `SubmitEnabled`. Buttons are not modelled as disabled while a submit is in flight.
- The user menu, avatar fallback and sign-out button of the dashboard header are not modelled, because they only display session data.
