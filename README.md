# Task manager backend: route handlers over a user table and a task table

This project models the two Express routers of the task-manager backend,
`backend/routes/tasks.js` and `backend/routes/auth.js`, as operations on an
in-memory store, and proves what each handler promises.

- `common.dfy` (module `Common`): optional request fields, the handler result
  (`Ok`, `Validation`, `NotFound`, `NotAuthorized`, `Conflict`,
  `InvalidCredentials`, `ServerError`), validation errors, JavaScript `||`, and
  the library functions the routes call but whose behaviour is not modelled
  (`trim`, `isEmail`, password hashing, `comparePassword`), gathered in a
  `Library` value of uninterpreted functions.
- `task_routes.dfy` (module `TaskRoutes`): the task record, the list query
  and what `Task.find` selects with it, the case-insensitive substring search,
  the newest-first order, the three validation chains and the partial-update
  rules.
- `auth_routes.dfy` (module `AuthRoutes`): the user record, the token as a
  value carrying the user id, the `{_id, name, email, token}` answer, the
  signup, login and profile validation chains, and the three sample tasks of a
  new account.
- `server.dfy` (module `Server`): class `Store` with the user map, the task
  map, an id counter and a creation counter standing in for `createdAt`; every
  route handler is a method that reads or updates those fields in place.
  `Valid()` keeps task ids equal to their keys, every owner a stored user,
  creation times distinct and emails unique.
- `scenarios.dfy` (module `Scenarios`): client methods that chain handlers:
  create then read back, another user's access, delete then read, an empty
  update, signup then login.

The caller id of a protected route (what the `protect` middleware puts in
`req.user`) is an argument of the handler. A request field is an
`Option<string>`: `None` is an undefined field. Truthiness is "present and
non-empty". For `description` and `dueDate` the field is
`Option<Option<string>>`, where the inner `None` is JSON `null`. A handler
that needs no `modifies` clause (list, get, login) changes no state.

Validation runs before the handler body, as the chains do. Sanitizers rewrite
the body: a stored title or name is `trim` of what was sent. An undefined
field reaches the validators as the empty string, so it fails `notEmpty`,
`isEmail` and `isLength({ min: 6 })`. `.optional()` skips only an undefined
field, so an empty string is still validated.

Empty values are validated, not skipped:

- In an update, a provided title that is blank after trimming is refused with
  "Title cannot be empty" by the title chain (`backend/routes/tasks.js:112`)
  before the `||` fallback of line 140 is reached. An empty status or priority
  is likewise refused as "Invalid status" or "Invalid priority". The model
  keeps both steps: validation in `UpdateErrors`, the fallback in
  `UpdateRules`. `ProvidedTitleOverwrites` shows that the title fallback only
  ever applies to an absent title.
- In a profile update (`backend/routes/auth.js:160-161`), an empty name fails
  the non-blank check and an empty email fails `isEmail`.

## Model

| member | source | states |
|---|---|---|
| `TaskRoutes.ContainsOccurs` | backend/routes/tasks.js:25-30 | the substring scan used by the search filter succeeds exactly when the term occurs at some position of the text |
| `TaskRoutes.NewestFirstUnique` | backend/routes/tasks.js:32 | two newest-first orders of the same tasks are equal, so the selected tasks determine the list answer |
| `TaskRoutes.NewestExists` | backend/routes/tasks.js:32 | any non-empty set of stored tasks has one whose creation time is at least that of every other |
| `TaskRoutes.SortStep` | backend/routes/tasks.js:32 | placing the newest of the remaining selected tasks next keeps the placed tasks strictly newest first, each newer than every remaining one, and every selected task either placed or remaining |
| `TaskRoutes.CreateErrors` | backend/routes/tasks.js:71-85 | create is refused exactly when the title is missing or blank after trimming, or a given status or priority is outside its three values; each failing field is reported with its message, and no other error |
| `TaskRoutes.UpdateErrors` | backend/routes/tasks.js:112-126 | update is refused exactly when a given title is blank after trimming, or a given status or priority is outside its values; an absent title passes |
| `TaskRoutes.ApplyUpdate` | backend/routes/tasks.js:140-144 | title, status and priority are replaced only by a truthy value; description and dueDate are replaced whenever present, including empty or null; id, owner and creation time are kept |
| `TaskRoutes.EmptyUpdateKeepsTask` | backend/routes/tasks.js:140-146 | an update that provides no field leaves the task equal to what it was |
| `TaskRoutes.ProvidedTitleOverwrites` | backend/routes/tasks.js:112-140 | once validation accepts an update, a provided title always replaces the old one with its trimmed value; the `||` fallback never keeps the old title for a provided one |
| `AuthRoutes.SignupErrors` | backend/routes/auth.js:20-31 | signup is refused exactly when the name is blank after trimming, the email is not valid, or the password has fewer than 6 characters; each failing check is reported |
| `AuthRoutes.LoginErrors` | backend/routes/auth.js:96-104 | login is refused before any lookup exactly when the email is not valid or the password is empty |
| `AuthRoutes.ProfileErrors` | backend/routes/auth.js:159-167 | a profile update is refused exactly when a given name is blank after trimming or a given email is not valid; absent fields pass |
| `AuthRoutes.SeedTasks` | backend/routes/auth.js:51-75 | three tasks, all owned by the new user, titled "Welcome to TaskManager!", "Complete your profile", "Create your first task", with their three literal descriptions, statuses pending, in-progress, pending and priorities low, medium, high, all valid enum values, and no due date |
| `Server.Store.InsertFresh` | backend/routes/tasks.js:88-95 | a store write adds one task under a fresh id, newer than all stored tasks, and keeps the store invariant |
| `Server.Store.Find` | backend/routes/tasks.js:32 | the answer holds every stored task the query matches and nothing else, each as stored, in strictly decreasing creation order |
| `Server.Store.List` | backend/routes/tasks.js:10-38 | every task returned is the caller's own; a truthy status or priority filter returns only tasks with exactly that value; a truthy search returns only tasks whose title or description contains the term ignoring case; a falsy filter adds no constraint; every stored task meeting the filters is returned; the order is strictly newest first |
| `Server.Store.Get` | backend/routes/tasks.js:44-62 | succeeds exactly on a stored task of the caller and returns it; a missing id is "Task not found" whoever owns what; an existing task of another user is "Not authorized" |
| `Server.Store.Create` | backend/routes/tasks.js:67-103 | the caller is a stored user; refused input adds nothing; otherwise exactly one task is added under a fresh id, owned by the caller whatever owner the body names, with the trimmed title, the given fields, the model defaults for an absent status or priority, and a creation time newer than every stored task |
| `Server.Store.Update` | backend/routes/tasks.js:108-154 | validation first; then a missing id is "Task not found" and another user's task is "Not authorized", both leaving the table unchanged; the owner's update follows the update rules on the sanitized body and changes that task only |
| `Server.Store.Delete` | backend/routes/tasks.js:159-179 | a missing id is "Task not found" and another user's task is "Not authorized", both leaving the table unchanged; the owner's delete removes exactly that id and answers "Task removed" |
| `Server.Store.AddAccount` | backend/routes/auth.js:43-75 | adds exactly one user under a fresh id and exactly three new tasks, the sample tasks, owned by that user, leaving every other task as it was; the new user owns exactly those three tasks |
| `Server.Store.FindUserByEmail` | backend/routes/auth.js:37 | finds a user with the given email when there is one, and reports none only when no user has it |
| `Server.Store.Signup` | backend/routes/auth.js:18-89 | refused input changes neither table; an email already in the user table is "User already exists" and changes neither table; otherwise one user with the trimmed name and the hash of the password, its three sample tasks, which are then exactly the tasks the new user owns, and an answer with id, name, email and a token whose subject is the new id and whose lifetime is 30 days |
| `Server.Store.Login` | backend/routes/auth.js:94-134 | refused input is reported before any lookup; login succeeds exactly when some user has that email and the password check accepts its stored hash; an unknown email and a wrong password both give the same "Invalid credentials" answer; success answers id, name, email and a token whose subject is that user's id and whose lifetime is 30 days |
| `Server.Store.UpdateProfile` | backend/routes/auth.js:156-191 | refused input changes nothing; a missing caller is "User not found"; otherwise name and email are each replaced only by a truthy new value, the password hash and every other user are untouched, and the answer is id, name and email; a new email held by another user is refused by the store |
| `Scenarios.CreateThenGet` | backend/routes/tasks.js:44-103 | a task read back by the id that create returned is field for field the created task |
| `Scenarios.OthersAreRefused` | backend/routes/tasks.js:53-55 | a task of one user is refused to any other user: reading and deleting are "Not authorized", updating is the validation errors when the body fails validation and "Not authorized" otherwise; the task stays stored |
| `Scenarios.DeleteThenGet` | backend/routes/tasks.js:159-179 | after a successful delete the id is "Task not found" |
| `Scenarios.UpdateNothing` | backend/routes/tasks.js:108-154 | an update with no fields succeeds and returns the task unchanged |
| `Scenarios.BlankTitleAndEmptyDescription` | backend/routes/tasks.js:112-144 | an update with an empty title is refused as "Title cannot be empty", while one with an empty description succeeds and stores the empty description, keeping the title |
| `Scenarios.SignupThenLogin` | backend/routes/auth.js:18-134 | after a signup, a login with the same email and password succeeds exactly when the password check accepts the stored hash, and then answers the same id, name and email with a token whose subject is that id |

The answer of signup, login and profile update is a `Profile`, a datatype
with the fields id, name, email and an optional token, and no password
field. No answer can contain the password.

## Left out

- JWT signing and verification: the secret, the signature and the check of
  the 30-day expiry are not modelled. A token is the value it carries: the
  user id and the lifetime string. The issue time (`iat`) and the expiry
  derived from it are not modelled, so two tokens for one id are equal here
  although tokens issued at different times differ.
- Password hashing and `user.comparePassword` live in the User model, which
  is not part of this model. Both are uninterpreted functions. Hashing is a
  function of the password, so the per-call salt is not modelled.
- `isEmail` and the `trim` sanitizer of express-validator are uninterpreted
  functions.
- The search term is passed to MongoDB as a regular expression. The model
  treats it as a literal substring, so regex metacharacters are not modelled.
  Case is ignored by ASCII lower-casing only. Unicode case folding is not
  modelled.
- Task defaults (status pending, priority medium) and the timestamps belong
  to the Task model, which is not part of this model. The defaults are
  assumptions. `createdAt` is a counter, so ties are not modelled. The three
  sample tasks get consecutive counter values, although their real
  timestamps may be equal. `updatedAt` is not modelled.
- JSON `null` and an absent `description` or `dueDate` are both stored as
  `None`, so a field cleared with `null` cannot be told apart from one never
  set, although the stored document and the JSON answer differ.
- Mongoose's casting of `dueDate` to a date is not modelled. A due date is
  stored as the string that was sent.
- Request values that are not strings (numbers, booleans, arrays in the body
  or a repeated query parameter) are not modelled, since every field is an
  optional string.
- A validation error carries the field and the message only, not the value
  or the location.
- The password length is the number of characters (Unicode scalar values).
  The `isLength` check counts a surrogate pair once too, but it also skips
  the variation selectors U+FE0E and U+FE0F, which the model counts.
- The `protect` middleware is not shown. The caller id is an argument. Create
  requires it to be a stored user, as `protect` guarantees, and `Valid()`
  keeps every task's owner a stored user. The other task handlers accept any
  id; one that is not a user's owns no task, so it gets only errors.
- The unique index on the user's email belongs to the User model, which is
  not part of this model. It is an assumption: `Valid()` keeps emails unique,
  and a profile save that would duplicate an email is refused with a 500.
- Every 500 "Server error" path is left out, except the save that the
  assumed unique email index refuses in a profile update. Also left out:
  async/await, ObjectId string comparison, and the non-atomic check-then-create
  of signup, which matter only under concurrency or I/O failure.
- `GET /api/auth/me` is left out. It is a bare lookup whose missing-user case
  is a runtime throw.
- The frontend files (`frontend/app/dashboard/page.tsx`,
  `frontend/app/profile/page.tsx`, `frontend/components/Navbar.tsx`,
  `frontend/app/page.tsx`, `frontend/context/AuthContext.tsx`) are React UI
  and session glue, not part of this model.
