/** The value-level part of the task routes (backend/routes/tasks.js): the task
    record, the list query and what it selects, the validation chains, and the
    partial-update rules. The handlers themselves are methods of Server.Store. */
module TaskRoutes {
  import opened Common

  const Statuses: seq<string> := ["pending", "in-progress", "completed"]
  const Priorities: seq<string> := ["low", "medium", "high"]

  /** Defaults the Task model fills in for a missing status or priority
      (models/Task is not part of this model; these are assumptions). */
  const DefaultStatus := "pending"
  const DefaultPriority := "medium"

  const TaskNotFound := "Task not found"
  const NotAuthorizedMessage := "Not authorized"
  const TaskRemoved := "Task removed"

  const TitleRequired := FieldError("title", "Title is required")
  const TitleEmpty := FieldError("title", "Title cannot be empty")
  const InvalidStatus := FieldError("status", "Invalid status")
  const InvalidPriority := FieldError("priority", "Invalid priority")

  /** A stored task. `created` is a creation counter standing in for
      `createdAt`; description and dueDate may be absent (or null). */
  datatype Task = Task(
    id: TaskId,
    owner: UserId,
    title: string,
    description: Option<string>,
    status: string,
    priority: string,
    dueDate: Option<string>,
    created: nat)

  /** The JSON body of a create or update request. For description and dueDate
      the outer Option is "present at all" and the inner one "not null". */
  datatype TaskFields = TaskFields(
    owner: Option<UserId>,
    title: Option<string>,
    description: Option<Option<string>>,
    status: Option<string>,
    priority: Option<string>,
    dueDate: Option<Option<string>>)

  const NoFields := TaskFields(None, None, None, None, None, None)

  /** A present-or-null field as the store keeps it: undefined and null are
      both "no value". */
  function Stored(x: Option<Option<string>>): Option<string> {
    match x
    case Some(v) => v
    case None => None
  }

  // ---------------------------------------------------------------------
  // Search: a case-insensitive literal substring test

  function LowerChar(c: char): char {
    if 'A' <= c <= 'Z' then (c as int + 32) as char else c
  }

  function Lower(s: string): string {
    seq(|s|, i requires 0 <= i < |s| => LowerChar(s[i]))
  }

  /** `pat` occurs in `text` at position `i`. */
  predicate OccursAt(pat: string, text: string, i: int) {
    0 <= i && i + |pat| <= |text| && text[i..i + |pat|] == pat
  }

  /** Substring search, scanning `text` from the left. */
  function Contains(text: string, pat: string): bool
    decreases |text|
  {
    if |pat| > |text| then false
    else if text[..|pat|] == pat then true
    else Contains(text[1..], pat)
  }

  lemma OccursShift(pat: string, text: string, i: int)
    requires |text| > 0 && i >= 1
    ensures OccursAt(pat, text, i) <==> OccursAt(pat, text[1..], i - 1)
  {
    if i + |pat| <= |text| {
      assert text[1..][i - 1..i - 1 + |pat|] == text[i..i + |pat|];
    }
  }

  /** The scan finds `pat` exactly when it occurs somewhere in `text`. */
  lemma {:induction false} ContainsOccurs(text: string, pat: string)
    ensures Contains(text, pat) <==> exists i :: OccursAt(pat, text, i)
    decreases |text|
  {
    if |pat| > |text| {
    } else if text[..|pat|] == pat {
      assert OccursAt(pat, text, 0);
    } else {
      ContainsOccurs(text[1..], pat);
      forall i | OccursAt(pat, text, i) ensures OccursAt(pat, text[1..], i - 1) {
        assert text[0..|pat|] == text[..|pat|];
        assert i != 0;
        OccursShift(pat, text, i);
      }
      forall j | OccursAt(pat, text[1..], j) ensures OccursAt(pat, text, j + 1) {
        OccursShift(pat, text, j + 1);
      }
    }
  }

  function ContainsIgnoringCase(text: string, term: string): bool {
    Contains(Lower(text), Lower(term))
  }

  /** The `$or` of the search filter: the title or the description contains the term. */
  predicate MentionsTerm(t: Task, term: string) {
    || ContainsIgnoringCase(t.title, term)
    || (t.description.Some? && ContainsIgnoringCase(t.description.value, term))
  }

  // ---------------------------------------------------------------------
  // The list query

  /** The query document the list handler builds: the owner, and the status,
      priority and search entries that were added to it. */
  datatype Query = Query(owner: UserId, status: Option<string>, priority: Option<string>, search: Option<string>)

  /** What `Task.find(query)` selects. */
  predicate Matches(q: Query, t: Task) {
    && t.owner == q.owner
    && (q.status.Some? ==> t.status == q.status.value)
    && (q.priority.Some? ==> t.priority == q.priority.value)
    && (q.search.Some? ==> MentionsTerm(t, q.search.value))
  }

  /** The tasks a list request asks for, stated on the request parameters:
      a falsy filter adds no constraint. */
  predicate Wanted(t: Task, caller: UserId, status: Option<string>, priority: Option<string>, search: Option<string>) {
    && t.owner == caller
    && (Truthy(status) ==> t.status == status.value)
    && (Truthy(priority) ==> t.priority == priority.value)
    && (Truthy(search) ==> MentionsTerm(t, search.value))
  }

  /** `.sort({createdAt: -1})`: strictly newest first. */
  predicate NewestFirst(ts: seq<Task>) {
    forall i, j :: 0 <= i < j < |ts| ==> ts[i].created > ts[j].created
  }

  /** A task older than every task of a newest-first list may follow them. */
  lemma NewestFirstAppend(ts: seq<Task>, t: Task)
    requires NewestFirst(ts)
    requires forall i :: 0 <= i < |ts| ==> t.created < ts[i].created
    ensures NewestFirst(ts + [t])
  {
  }

  /** A newest-first order of a given set of tasks is unique, so the list
      result is determined by the tasks it selects. */
  lemma {:induction false} NewestFirstUnique(a: seq<Task>, b: seq<Task>)
    requires NewestFirst(a) && NewestFirst(b)
    requires forall t :: t in a <==> t in b
    ensures a == b
    decreases |a|
  {
    assert a != [] ==> a[0] in b;
    assert b != [] ==> b[0] in a;
    if a != [] && b != [] {
      var i :| 0 <= i < |a| && a[i] == b[0];
      var j :| 0 <= j < |b| && b[j] == a[0];
      assert i == 0;
      forall t ensures t in a[1..] <==> t in b[1..] {
        if t in a[1..] {
          var k :| 0 <= k < |a| - 1 && a[1..][k] == t;
          assert a[k + 1] == t;
          assert t in a && t.created < a[0].created;
          var m :| 0 <= m < |b| && b[m] == t;
          assert m != 0;
          assert b[1..][m - 1] == t;
        }
        if t in b[1..] {
          var k :| 0 <= k < |b| - 1 && b[1..][k] == t;
          assert b[k + 1] == t;
          assert t in b && t.created < b[0].created;
          var m :| 0 <= m < |a| && a[m] == t;
          assert m != 0;
          assert a[1..][m - 1] == t;
        }
      }
      NewestFirstUnique(a[1..], b[1..]);
      assert a == [a[0]] + a[1..] && b == [b[0]] + b[1..];
    }
  }

  /** Every task is stored under its own id. */
  predicate IdsAreKeys(tasks: map<TaskId, Task>) {
    forall k :: k in tasks ==> tasks[k].id == k
  }

  /** No two stored tasks share a creation time. */
  predicate CreatedDistinct(tasks: map<TaskId, Task>) {
    forall a, b :: a in tasks && b in tasks && a != b ==> tasks[a].created != tasks[b].created
  }

  /** The state of the selection of `selected` newest first: `r` holds the
      tasks already placed, newest first and each newer than every task still
      `pending`; every selected task is in one of the two. */
  predicate SortState(tasks: map<TaskId, Task>, selected: set<TaskId>, pending: set<TaskId>, r: seq<Task>) {
    && pending <= selected <= tasks.Keys
    && (forall i :: 0 <= i < |r| ==> r[i].id in selected && tasks[r[i].id] == r[i] && r[i].id !in pending)
    && (forall id :: id in selected ==> id in pending || tasks[id] in r)
    && NewestFirst(r)
    && (forall i, id :: 0 <= i < |r| && id in pending ==> tasks[id].created < r[i].created)
  }

  /** Moving the newest pending task to the end of the placed ones keeps the
      selection state. */
  lemma SortStep(tasks: map<TaskId, Task>, selected: set<TaskId>, pending: set<TaskId>, r: seq<Task>, id: TaskId)
    requires IdsAreKeys(tasks) && CreatedDistinct(tasks)
    requires SortState(tasks, selected, pending, r)
    requires id in pending && forall j :: j in pending ==> tasks[j].created <= tasks[id].created
    ensures SortState(tasks, selected, pending - {id}, r + [tasks[id]])
  {
    NewestFirstAppend(r, tasks[id]);
    assert forall j :: j in pending && j != id ==> tasks[j].created < tasks[id].created;
  }

  /** Among finitely many stored tasks one is the newest. */
  lemma {:induction false} NewestExists(tasks: map<TaskId, Task>, ids: set<TaskId>)
    requires ids != {} && ids <= tasks.Keys
    ensures exists id :: id in ids && forall j :: j in ids ==> tasks[j].created <= tasks[id].created
    decreases ids
  {
    var x :| x in ids;
    var rest := ids - {x};
    if rest == {} {
      assert ids == {x};
    } else {
      NewestExists(tasks, rest);
      var y :| y in rest && forall j :: j in rest ==> tasks[j].created <= tasks[y].created;
      if tasks[x].created <= tasks[y].created {
        assert forall j :: j in ids ==> tasks[j].created <= tasks[y].created;
      } else {
        assert forall j :: j in ids ==> tasks[j].created <= tasks[x].created;
      }
    }
  }

  // ---------------------------------------------------------------------
  // Validation chains

  /** `.optional().isIn(allowed)`: an absent field passes. */
  predicate OptionalIn(x: Option<string>, allowed: seq<string>) {
    x.None? || x.value in allowed
  }

  /** The chains of POST /api/tasks, in order: a title that is non-blank after
      trimming is required; status and priority, when present, must be one of
      their values. */
  function CreateErrors(trim: string -> string, body: TaskFields): (errs: seq<FieldError>)
    ensures errs == [] <==>
      (body.title.Some? && trim(body.title.value) != "") && OptionalIn(body.status, Statuses) && OptionalIn(body.priority, Priorities)
    ensures TitleRequired in errs <==> !(body.title.Some? && trim(body.title.value) != "")
    ensures InvalidStatus in errs <==> !OptionalIn(body.status, Statuses)
    ensures InvalidPriority in errs <==> !OptionalIn(body.priority, Priorities)
    ensures forall e :: e in errs ==> e == TitleRequired || e == InvalidStatus || e == InvalidPriority
  {
    Check(body.title.Some? && trim(body.title.value) != "", TitleRequired)
    + Check(OptionalIn(body.status, Statuses), InvalidStatus)
    + Check(OptionalIn(body.priority, Priorities), InvalidPriority)
  }

  /** The chains of PUT /api/tasks/:id: like create, except that the title is
      optional, but a present title must still be non-blank after trimming. */
  function UpdateErrors(trim: string -> string, body: TaskFields): (errs: seq<FieldError>)
    ensures errs == [] <==>
      (body.title.None? || trim(body.title.value) != "") && OptionalIn(body.status, Statuses) && OptionalIn(body.priority, Priorities)
    ensures TitleEmpty in errs <==> (body.title.Some? && trim(body.title.value) == "")
    ensures InvalidStatus in errs <==> !OptionalIn(body.status, Statuses)
    ensures InvalidPriority in errs <==> !OptionalIn(body.priority, Priorities)
    ensures forall e :: e in errs ==> e == TitleEmpty || e == InvalidStatus || e == InvalidPriority
  {
    Check(body.title.None? || trim(body.title.value) != "", TitleEmpty)
    + Check(OptionalIn(body.status, Statuses), InvalidStatus)
    + Check(OptionalIn(body.priority, Priorities), InvalidPriority)
  }

  /** The update body as the handler sees it after the title sanitizer ran. */
  function Sanitized(trim: string -> string, body: TaskFields): TaskFields {
    body.(title := Trimmed(trim, body.title))
  }

  // ---------------------------------------------------------------------
  // Partial update

  /** The overwrite rules of an update: title, status and priority take the new
      value only when it is truthy; description and dueDate take it whenever it
      is present, so an empty or null value clears them; id, owner and the
      creation time never change. */
  predicate UpdateRules(t: Task, body: TaskFields, u: Task) {
    && u.id == t.id && u.owner == t.owner && u.created == t.created
    && u.title == (if Truthy(body.title) then body.title.value else t.title)
    && u.description == (if body.description.Some? then body.description.value else t.description)
    && u.status == (if Truthy(body.status) then body.status.value else t.status)
    && u.priority == (if Truthy(body.priority) then body.priority.value else t.priority)
    && u.dueDate == (if body.dueDate.Some? then body.dueDate.value else t.dueDate)
  }

  /** The five field assignments of the update handler, one at a time. */
  method ApplyUpdate(t: Task, body: TaskFields) returns (u: Task)
    ensures UpdateRules(t, body, u)
  {
    u := t;
    u := u.(title := Or(body.title, u.title));
    u := u.(description := body.description.GetOr(u.description));
    u := u.(status := Or(body.status, u.status));
    u := u.(priority := Or(body.priority, u.priority));
    u := u.(dueDate := body.dueDate.GetOr(u.dueDate));
  }

  /** An update that provides no field leaves the task as it was. */
  lemma EmptyUpdateKeepsTask(t: Task, u: Task)
    requires UpdateRules(t, NoFields, u)
    ensures u == t
  {
  }

  /** Once the update chains accept a body, a provided title always
      overwrites: the `||` fallback on the title only applies to an absent one. */
  lemma ProvidedTitleOverwrites(trim: string -> string, body: TaskFields, t: Task, u: Task)
    requires UpdateErrors(trim, body) == [] && body.title.Some?
    requires UpdateRules(t, Sanitized(trim, body), u)
    ensures u.title == trim(body.title.value)
  {
  }
}
