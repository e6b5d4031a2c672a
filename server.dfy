/** The route handlers of backend/routes/tasks.js and backend/routes/auth.js as
    methods on one store: a user table and a task table that the handlers read
    and update in place. The caller id of a protected route is the user the
    `protect` middleware resolved; it is passed in as an argument. */
module Server {
  import opened Common
  import opened TaskRoutes
  import opened AuthRoutes

  /** The unique index on email that the user store is assumed to keep; the
      User model that would declare it is not part of this model. */
  predicate EmailsUnique(users: map<UserId, User>) {
    forall a, b :: a in users && b in users && a != b ==> users[a].email != users[b].email
  }

  /** `User.findOne({ email })` finds someone. */
  predicate EmailTaken(users: map<UserId, User>, email: string) {
    exists id :: id in users && users[id].email == email
  }

  /** Every task belongs to a stored user: tasks are only created for the user
      the `protect` middleware resolved, and users are never removed. */
  predicate OwnersAreUsers(tasks: map<TaskId, Task>, users: map<UserId, User>) {
    forall k :: k in tasks ==> tasks[k].owner in users
  }

  /** A user other than `caller` already has this email. */
  predicate EmailHeldByOther(users: map<UserId, User>, caller: UserId, email: string) {
    exists id :: id in users && id != caller && users[id].email == email
  }

  /** The tables after `User.create` of `user` under the fresh id `id` and the
      batch insert of its sample tasks, the first created at time `created`:
      one more user, and three more tasks, all owned by that user. */
  predicate AccountAdded(users0: map<UserId, User>, tasks0: map<TaskId, Task>,
                         users1: map<UserId, User>, tasks1: map<TaskId, Task>,
                         id: UserId, user: User, created: nat)
  {
    var seeds := SeedTasks(id, id + 1, created);
    && id !in users0
    && users1 == users0[id := user]
    && (forall i :: 0 <= i < 3 ==> seeds[i].id !in tasks0)
    && tasks1 == tasks0[seeds[0].id := seeds[0]][seeds[1].id := seeds[1]][seeds[2].id := seeds[2]]
    && |tasks1| == |tasks0| + 3
    && (forall k :: k in tasks1 && k !in tasks0 ==> tasks1[k].owner == id)
    && (forall k :: k in tasks1 ==> (tasks1[k].owner == id <==> id + 1 <= k <= id + 3))
  }

  /** Adding the user `id`, whom no stored id reaches, and then inserting its
      three sample tasks under ids no stored task has gives `AccountAdded`:
      the new user owns exactly those three tasks. */
  lemma AccountAddedByInserts(users0: map<UserId, User>, tasks0: map<TaskId, Task>,
                              users1: map<UserId, User>, tasks1: map<TaskId, Task>,
                              id: UserId, user: User, created: nat)
    requires forall k :: k in users0 ==> k < id
    requires forall k :: k in tasks0 ==> k < id + 1 && tasks0[k].owner in users0
    requires users1 == users0[id := user]
    requires var seeds := SeedTasks(id, id + 1, created);
      tasks1 == tasks0[seeds[0].id := seeds[0]][seeds[1].id := seeds[1]][seeds[2].id := seeds[2]]
    ensures AccountAdded(users0, tasks0, users1, tasks1, id, user, created)
  {
    var seeds := SeedTasks(id, id + 1, created);
    assert id !in users0;
    assert forall i :: 0 <= i < 3 ==> seeds[i].id !in tasks0;
    ThreeMore(tasks0, seeds[0], seeds[1], seeds[2]);
    assert forall k :: k in tasks0 ==> tasks0[k].owner != id;
    SeedsOwned(tasks0, tasks1, id, created);
  }

  /** Three tasks under three new ids make the table three larger. */
  lemma ThreeMore(tasks0: map<TaskId, Task>, a: Task, b: Task, c: Task)
    requires a.id !in tasks0 && b.id !in tasks0 && c.id !in tasks0
    requires a.id != b.id && a.id != c.id && b.id != c.id
    ensures |tasks0[a.id := a][b.id := b][c.id := c]| == |tasks0| + 3
  {
    var t1 := tasks0[a.id := a];
    var t2 := t1[b.id := b];
    assert |t1| == |tasks0| + 1;
    assert |t2| == |t1| + 1;
  }

  /** Inserting the sample tasks of `id` into a table where `id` owned
      nothing makes them exactly the tasks `id` owns. */
  lemma SeedsOwned(tasks0: map<TaskId, Task>, tasks1: map<TaskId, Task>, id: UserId, created: nat)
    requires forall k :: k in tasks0 ==> tasks0[k].owner != id
    requires var seeds := SeedTasks(id, id + 1, created);
      tasks1 == tasks0[seeds[0].id := seeds[0]][seeds[1].id := seeds[1]][seeds[2].id := seeds[2]]
    ensures forall k :: k in tasks1 ==> (tasks1[k].owner == id <==> id + 1 <= k <= id + 3)
  {
    var seeds := SeedTasks(id, id + 1, created);
    forall k | k in tasks1
      ensures tasks1[k].owner == id <==> id + 1 <= k <= id + 3
    {
      if k == id + 1 {
        assert tasks1[k] == seeds[0];
      } else if k == id + 2 {
        assert tasks1[k] == seeds[1];
      } else if k == id + 3 {
        assert tasks1[k] == seeds[2];
      } else {
        assert k in tasks0 && tasks1[k] == tasks0[k];
      }
    }
  }

  class Store {
    const lib: Library
    var users: map<UserId, User>
    var tasks: map<TaskId, Task>
    /** The next identifier the store hands out, to a user or a task. */
    var nextId: nat
    /** The creation counter standing in for `createdAt`. */
    var clock: nat

    ghost predicate Valid()
      reads this
    {
      && IdsAreKeys(tasks)
      && (forall k :: k in tasks ==> k < nextId && tasks[k].created < clock)
      && (forall k :: k in users ==> k < nextId)
      && CreatedDistinct(tasks)
      && EmailsUnique(users)
      && OwnersAreUsers(tasks, users)
    }

    constructor (lib: Library)
      ensures Valid()
      ensures this.lib == lib && users == map[] && tasks == map[]
    {
      this.lib := lib;
      users, tasks := map[], map[];
      nextId, clock := 0, 0;
    }

    /** Stores one task whose id and creation time are the store's next ones. */
    method InsertFresh(t: Task)
      requires Valid() && t.id >= nextId && t.created == clock && t.owner in users
      modifies this`tasks, this`nextId, this`clock
      ensures Valid()
      ensures tasks == old(tasks)[t.id := t] && t.id !in old(tasks)
      ensures nextId == t.id + 1 && clock == old(clock) + 1
    {
      tasks := tasks[t.id := t];
      nextId, clock := t.id + 1, clock + 1;
    }

    // -------------------------------------------------------------------
    // Task routes

    /** `Task.find(query).sort({ createdAt: -1 })`: every stored task the query
        matches, and nothing else, newest first. */
    method Find(q: Query) returns (r: seq<Task>)
      requires IdsAreKeys(tasks) && CreatedDistinct(tasks)
      ensures forall i :: 0 <= i < |r| ==> r[i].id in tasks && tasks[r[i].id] == r[i] && Matches(q, r[i])
      ensures forall id :: id in tasks && Matches(q, tasks[id]) ==> tasks[id] in r
      ensures NewestFirst(r)
    {
      var selected := set id | id in tasks && Matches(q, tasks[id]);
      var pending := selected;
      r := [];
      while pending != {}
        invariant SortState(tasks, selected, pending, r)
        decreases pending
      {
        NewestExists(tasks, pending);
        var id :| id in pending && forall j :: j in pending ==> tasks[j].created <= tasks[id].created;
        SortStep(tasks, selected, pending, r, id);
        r := r + [tasks[id]];
        pending := pending - {id};
      }
    }

    /** GET /api/tasks: the caller's tasks that pass every truthy filter
        (exact status, exact priority, search term in title or description),
        newest first. */
    method List(caller: UserId, status: Option<string>, priority: Option<string>, search: Option<string>)
      returns (r: seq<Task>)
      requires Valid()
      ensures forall i :: 0 <= i < |r| ==> r[i].id in tasks && tasks[r[i].id] == r[i]
      ensures forall i :: 0 <= i < |r| ==> r[i].owner == caller
      ensures forall i :: 0 <= i < |r| ==> Truthy(status) ==> r[i].status == status.value
      ensures forall i :: 0 <= i < |r| ==> Truthy(priority) ==> r[i].priority == priority.value
      ensures forall i :: 0 <= i < |r| ==> Truthy(search) ==> MentionsTerm(r[i], search.value)
      ensures forall id :: id in tasks && Wanted(tasks[id], caller, status, priority, search) ==> tasks[id] in r
      ensures NewestFirst(r)
    {
      var query := Query(caller, None, None, None);
      if Truthy(status) {
        query := query.(status := status);
      }
      if Truthy(priority) {
        query := query.(priority := priority);
      }
      if Truthy(search) {
        query := query.(search := search);
      }
      assert forall t :: Matches(query, t) <==> Wanted(t, caller, status, priority, search);
      r := Find(query);
    }

    /** GET /api/tasks/:id, and the gate that update and delete share: a
        missing id is "Task not found", checked before ownership; another
        user's task is "Not authorized". */
    method Get(caller: UserId, id: TaskId) returns (r: Result<Task>)
      ensures r.Ok? <==> id in tasks && tasks[id].owner == caller
      ensures r.Ok? ==> r.value == tasks[id]
      ensures id !in tasks ==> r == NotFound(TaskNotFound)
      ensures id in tasks && tasks[id].owner != caller ==> r == NotAuthorized(NotAuthorizedMessage)
    {
      if id !in tasks {
        return NotFound(TaskNotFound);
      }
      var task := tasks[id];
      if task.owner != caller {
        return NotAuthorized(NotAuthorizedMessage);
      }
      return Ok(task);
    }

    /** POST /api/tasks: after validation, one new task owned by the caller,
        whatever owner the body names, newer than every stored task. */
    method Create(caller: UserId, body: TaskFields) returns (r: Result<Task>)
      requires Valid() && caller in users
      modifies this`tasks, this`nextId, this`clock
      ensures Valid()
      ensures CreateErrors(lib.trim, body) != [] ==>
        r == Validation(CreateErrors(lib.trim, body)) && tasks == old(tasks)
      ensures CreateErrors(lib.trim, body) == [] ==>
        && r.Ok?
        && r.value.id !in old(tasks)
        && tasks == old(tasks)[r.value.id := r.value]
        && r.value.owner == caller
        && r.value.title == lib.trim(body.title.value)
        && r.value.description == Stored(body.description)
        && r.value.status == body.status.GetOr(DefaultStatus)
        && r.value.priority == body.priority.GetOr(DefaultPriority)
        && r.value.dueDate == Stored(body.dueDate)
        && (forall k :: k in old(tasks) ==> old(tasks)[k].created < r.value.created)
    {
      var errs := CreateErrors(lib.trim, body);
      if errs != [] {
        return Validation(errs);
      }
      var task := Task(nextId, caller, lib.trim(body.title.value), Stored(body.description),
                       body.status.GetOr(DefaultStatus), body.priority.GetOr(DefaultPriority),
                       Stored(body.dueDate), clock);
      InsertFresh(task);
      r := Ok(task);
    }

    /** PUT /api/tasks/:id: validation, then the shared gate, then the partial
        update of that one task. */
    method Update(caller: UserId, id: TaskId, body: TaskFields) returns (r: Result<Task>)
      requires Valid()
      modifies this`tasks
      ensures Valid()
      ensures UpdateErrors(lib.trim, body) != [] ==>
        r == Validation(UpdateErrors(lib.trim, body)) && tasks == old(tasks)
      ensures UpdateErrors(lib.trim, body) == [] && id !in old(tasks) ==>
        r == NotFound(TaskNotFound) && tasks == old(tasks)
      ensures UpdateErrors(lib.trim, body) == [] && id in old(tasks) && old(tasks)[id].owner != caller ==>
        r == NotAuthorized(NotAuthorizedMessage) && tasks == old(tasks)
      ensures UpdateErrors(lib.trim, body) == [] && id in old(tasks) && old(tasks)[id].owner == caller ==>
        && r.Ok?
        && UpdateRules(old(tasks)[id], Sanitized(lib.trim, body), r.value)
        && tasks == old(tasks)[id := r.value]
    {
      var errs := UpdateErrors(lib.trim, body);
      if errs != [] {
        return Validation(errs);
      }
      var found := Get(caller, id);
      if !found.Ok? {
        return found;
      }
      var updated := ApplyUpdate(found.value, Sanitized(lib.trim, body));
      tasks := tasks[id := updated];
      r := Ok(updated);
    }

    /** DELETE /api/tasks/:id: the shared gate, then removal of that one task. */
    method Delete(caller: UserId, id: TaskId) returns (r: Result<string>)
      requires Valid()
      modifies this`tasks
      ensures Valid()
      ensures id !in old(tasks) ==> r == NotFound(TaskNotFound) && tasks == old(tasks)
      ensures id in old(tasks) && old(tasks)[id].owner != caller ==>
        r == NotAuthorized(NotAuthorizedMessage) && tasks == old(tasks)
      ensures id in old(tasks) && old(tasks)[id].owner == caller ==>
        r == Ok(TaskRemoved) && tasks == old(tasks) - {id}
    {
      var found := Get(caller, id);
      if !found.Ok? {
        return found.Forward();
      }
      tasks := tasks - {id};
      r := Ok(TaskRemoved);
    }

    // -------------------------------------------------------------------
    // Auth routes

    /** `User.create` of a user whose email is free, then the batch insert of
        its three sample tasks. */
    method AddAccount(user: User) returns (id: UserId)
      requires Valid() && !EmailTaken(users, user.email)
      modifies this`users, this`tasks, this`nextId, this`clock
      ensures Valid()
      ensures id == old(nextId)
      ensures AccountAdded(old(users), old(tasks), users, tasks, id, user, old(clock))
    {
      id := nextId;
      ghost var users0, tasks0, created := users, tasks, clock;
      users := users[id := user];
      nextId := id + 1;
      var seeds := SeedTasks(id, id + 1, clock);
      InsertFresh(seeds[0]);
      InsertFresh(seeds[1]);
      InsertFresh(seeds[2]);
      AccountAddedByInserts(users0, tasks0, users, tasks, id, user, created);
    }

    /** `User.findOne({ email })`. */
    method FindUserByEmail(email: string) returns (found: Option<UserId>)
      ensures found.Some? ==> found.value in users && users[found.value].email == email
      ensures found.None? ==> forall id :: id in users ==> users[id].email != email
    {
      var pending := users.Keys;
      while pending != {}
        invariant pending <= users.Keys
        invariant forall id :: id in users && id !in pending ==> users[id].email != email
        decreases pending
      {
        var id :| id in pending;
        if users[id].email == email {
          return Some(id);
        }
        pending := pending - {id};
      }
      return None;
    }

    /** POST /api/auth/signup: validation, the duplicate-email check, then one
        new user and its three sample tasks; the answer carries a token for
        the new user's id. */
    method Signup(name: Option<string>, email: Option<string>, password: Option<string>)
      returns (r: Result<Profile>)
      requires Valid()
      modifies this`users, this`tasks, this`nextId, this`clock
      ensures Valid()
      ensures SignupErrors(lib, name, email, password) != [] ==>
        r == Validation(SignupErrors(lib, name, email, password)) && users == old(users) && tasks == old(tasks)
      ensures SignupErrors(lib, name, email, password) == [] && EmailTaken(old(users), email.value) ==>
        r == Conflict(UserExists) && users == old(users) && tasks == old(tasks)
      ensures SignupErrors(lib, name, email, password) == [] && !EmailTaken(old(users), email.value) ==>
        var id := old(nextId);
        var user := User(lib.trim(name.value), email.value, lib.hash(password.value));
        && r == Ok(Profile(id, user.name, user.email, Some(GenerateToken(id))))
        && AccountAdded(old(users), old(tasks), users, tasks, id, user, old(clock))
      ensures r.Ok? ==>
        forall k :: k in tasks ==> (tasks[k].owner == r.value.id <==> r.value.id + 1 <= k <= r.value.id + 3)
      ensures r.Ok? ==>
        r.value.token.Some? && r.value.token.value.subject == r.value.id && r.value.token.value.expiresIn == TokenLifetime
    {
      var errs := SignupErrors(lib, name, email, password);
      if errs != [] {
        return Validation(errs);
      }
      var existing := FindUserByEmail(email.value);
      if existing.Some? {
        return Conflict(UserExists);
      }
      var user := User(lib.trim(name.value), email.value, lib.hash(password.value));
      var id := AddAccount(user);
      r := Ok(Profile(id, user.name, user.email, Some(GenerateToken(id))));
    }

    /** POST /api/auth/login: validation, then the lookup and the password
        check, which fail with one and the same answer. */
    method Login(email: Option<string>, password: Option<string>) returns (r: Result<Profile>)
      requires Valid()
      ensures LoginErrors(lib, email, password) != [] ==> r == Validation(LoginErrors(lib, email, password))
      ensures LoginErrors(lib, email, password) == [] ==>
        (r.Ok? <==> exists id :: id in users && users[id].email == email.value
                                && lib.comparePassword(password.value, users[id].passwordHash))
      ensures LoginErrors(lib, email, password) == [] && !EmailTaken(users, email.value) ==>
        r == InvalidCredentials(InvalidCredentialsMessage)
      ensures LoginErrors(lib, email, password) == [] && !r.Ok? ==> r == InvalidCredentials(InvalidCredentialsMessage)
      ensures r.Ok? ==>
        var id := r.value.id;
        && id in users && users[id].email == email.value
        && lib.comparePassword(password.value, users[id].passwordHash)
        && r.value == Profile(id, users[id].name, users[id].email, Some(GenerateToken(id)))
      ensures r.Ok? ==>
        r.value.token.Some? && r.value.token.value.subject == r.value.id && r.value.token.value.expiresIn == TokenLifetime
    {
      var errs := LoginErrors(lib, email, password);
      if errs != [] {
        return Validation(errs);
      }
      var found := FindUserByEmail(email.value);
      if found.None? {
        return InvalidCredentials(InvalidCredentialsMessage);
      }
      var user := users[found.value];
      if !lib.comparePassword(password.value, user.passwordHash) {
        return InvalidCredentials(InvalidCredentialsMessage);
      }
      r := Ok(Profile(found.value, user.name, user.email, Some(GenerateToken(found.value))));
    }

    /** PUT /api/auth/profile: validation, the caller's record, then name and
        email each overwritten only by a truthy new value. A save that would
        give the caller another user's email is refused by the store. */
    method UpdateProfile(caller: UserId, name: Option<string>, email: Option<string>) returns (r: Result<Profile>)
      requires Valid()
      modifies this`users
      ensures Valid()
      ensures ProfileErrors(lib, name, email) != [] ==>
        r == Validation(ProfileErrors(lib, name, email)) && users == old(users)
      ensures ProfileErrors(lib, name, email) == [] && caller !in old(users) ==>
        r == NotFound(UserNotFound) && users == old(users)
      ensures ProfileErrors(lib, name, email) == [] && caller in old(users) ==>
        var before := old(users)[caller];
        var after := User(Or(Trimmed(lib.trim, name), before.name), Or(email, before.email), before.passwordHash);
        if EmailHeldByOther(old(users), caller, after.email) then
          r == ServerError(ServerErrorMessage) && users == old(users)
        else
          r == Ok(Profile(caller, after.name, after.email, None)) && users == old(users)[caller := after]
    {
      var errs := ProfileErrors(lib, name, email);
      if errs != [] {
        return Validation(errs);
      }
      if caller !in users {
        return NotFound(UserNotFound);
      }
      var user := users[caller];
      user := user.(name := Or(Trimmed(lib.trim, name), user.name));
      user := user.(email := Or(email, user.email));
      var holder := FindUserByEmail(user.email);
      if holder.Some? && holder.value != caller {
        return ServerError(ServerErrorMessage);
      }
      users := users[caller := user];
      r := Ok(Profile(caller, user.name, user.email, None));
    }
  }
}
