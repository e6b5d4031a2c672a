/** Client methods that chain handlers the way the application's clients do,
    and what the handlers' specifications let a client prove about the
    sequence. */
module Scenarios {
  import opened Common
  import opened TaskRoutes
  import opened AuthRoutes
  import opened Server

  /** Create, then read back by the returned id: the very task that was created. */
  method CreateThenGet(s: Store, caller: UserId, body: TaskFields) returns (created: Result<Task>, fetched: Result<Task>)
    requires s.Valid() && caller in s.users
    modifies s
    ensures s.Valid()
    ensures created.Ok? <==> CreateErrors(s.lib.trim, body) == []
    ensures created.Ok? ==> fetched == created && created.value.owner == caller
  {
    created := s.Create(caller, body);
    if created.Ok? {
      fetched := s.Get(caller, created.value.id);
    } else {
      fetched := created;
    }
  }

  /** A task created by one user is refused to every other user, for reading,
      updating and deleting alike, and stays in the table. */
  method OthersAreRefused(s: Store, owner: UserId, other: UserId, body: TaskFields, change: TaskFields)
    returns (created: Result<Task>, read: Result<Task>, updated: Result<Task>, deleted: Result<string>)
    requires s.Valid() && owner in s.users && owner != other
    modifies s
    ensures s.Valid()
    ensures created.Ok? ==>
      && read == NotAuthorized(NotAuthorizedMessage)
      && updated == (if UpdateErrors(s.lib.trim, change) != [] then Validation(UpdateErrors(s.lib.trim, change))
                     else NotAuthorized(NotAuthorizedMessage))
      && deleted == NotAuthorized(NotAuthorizedMessage)
      && created.value.id in s.tasks && s.tasks[created.value.id] == created.value
  {
    created := s.Create(owner, body);
    if created.Ok? {
      var id := created.value.id;
      read := s.Get(other, id);
      updated := s.Update(other, id, change);
      deleted := s.Delete(other, id);
    } else {
      read, updated, deleted := created, created, created.Forward();
    }
  }

  /** After a successful delete the id is not found any more. */
  method DeleteThenGet(s: Store, caller: UserId, id: TaskId) returns (deleted: Result<string>, fetched: Result<Task>)
    requires s.Valid()
    modifies s
    ensures s.Valid()
    ensures deleted.Ok? <==> id in old(s.tasks) && old(s.tasks)[id].owner == caller
    ensures deleted.Ok? ==> fetched == NotFound(TaskNotFound)
  {
    deleted := s.Delete(caller, id);
    fetched := s.Get(caller, id);
  }

  /** An update that provides no field succeeds and returns the task as it was. */
  method UpdateNothing(s: Store, caller: UserId, id: TaskId) returns (updated: Result<Task>)
    requires s.Valid()
    modifies s
    ensures s.Valid()
    ensures id in old(s.tasks) && old(s.tasks)[id].owner == caller ==>
      updated == Ok(old(s.tasks)[id]) && s.tasks == old(s.tasks)
  {
    assert Sanitized(s.lib.trim, NoFields) == NoFields;
    updated := s.Update(caller, id, NoFields);
    if updated.Ok? {
      EmptyUpdateKeepsTask(old(s.tasks)[id], updated.value);
    }
  }

  /** Of the two empty values an update can carry, a blank title is refused
      and the task is untouched, while an empty description is stored. */
  method BlankTitleAndEmptyDescription(s: Store, caller: UserId, id: TaskId)
    returns (withTitle: Result<Task>, withDescription: Result<Task>)
    requires s.Valid() && s.lib.trim("") == ""
    modifies s
    ensures s.Valid()
    ensures withTitle == Validation([TitleEmpty])
    ensures id in old(s.tasks) && old(s.tasks)[id].owner == caller ==>
      && withDescription.Ok?
      && withDescription.value.description == Some("")
      && withDescription.value.title == old(s.tasks)[id].title
  {
    withTitle := s.Update(caller, id, NoFields.(title := Some("")));
    withDescription := s.Update(caller, id, NoFields.(description := Some(Some(""))));
  }

  /** Signing up and then logging in with the same email and password gives
      back the same user and a token for the same id, provided the password
      check accepts the stored hash of that password. The two tokens need not
      be equal: each carries the time it was issued. */
  method SignupThenLogin(s: Store, name: Option<string>, email: Option<string>, password: Option<string>)
    returns (signedUp: Result<Profile>, loggedIn: Result<Profile>)
    requires s.Valid()
    modifies s
    ensures s.Valid()
    ensures signedUp.Ok? ==>
      && password.Some?
      && (loggedIn.Ok? <==> s.lib.comparePassword(password.value, s.lib.hash(password.value)))
    ensures signedUp.Ok? && loggedIn.Ok? ==>
      && loggedIn.value.id == signedUp.value.id
      && loggedIn.value.name == signedUp.value.name
      && loggedIn.value.email == signedUp.value.email
      && loggedIn.value.token.Some? && loggedIn.value.token.value.subject == signedUp.value.id
  {
    signedUp := s.Signup(name, email, password);
    if signedUp.Ok? {
      assert SignupErrors(s.lib, name, email, password) == [];
      assert LoginErrors(s.lib, email, password) == [];
      var id := signedUp.value.id;
      assert id in s.users && s.users[id].email == email.value;
    }
    loggedIn := s.Login(email, password);
  }
}
