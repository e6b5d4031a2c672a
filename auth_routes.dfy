/** The value-level part of the auth routes (backend/routes/auth.js): the user
    record, the token, the response body, the validation chains and the three
    sample tasks of a new account. The handlers are methods of Server.Store. */
module AuthRoutes {
  import opened Common
  import opened TaskRoutes

  /** A stored user. The password is kept only as the value the store's
      hashing produced from it. */
  datatype User = User(name: string, email: string, passwordHash: string)

  /** `jwt.sign({ id }, secret, { expiresIn: '30d' })`, seen as the value it
      carries: the signature over the secret is not modelled. */
  datatype Token = Token(subject: UserId, expiresIn: string)

  const TokenLifetime := "30d"

  /** generateToken: a token whose subject is the given user id. */
  function GenerateToken(id: UserId): Token
  {
    Token(id, TokenLifetime)
  }

  /** Distinct users get distinct tokens: the subject a token carries names
      one user, which is what the verification of a token relies on. */
  lemma {:induction false} TokenNamesOneUser(a: UserId, b: UserId)
    ensures a != b ==> GenerateToken(a) != GenerateToken(b)
  {
  }

  /** The JSON body of a successful signup, login or profile answer:
      `{_id, name, email}` and, for signup and login, the token. It has no
      field for the password. */
  datatype Profile = Profile(id: UserId, name: string, email: string, token: Option<Token>)

  const UserExists := "User already exists"
  const InvalidCredentialsMessage := "Invalid credentials"
  const UserNotFound := "User not found"

  const NameRequired := FieldError("name", "Name is required")
  const NameEmpty := FieldError("name", "Name cannot be empty")
  const InvalidEmail := FieldError("email", "Please provide a valid email")
  const PasswordTooShort := FieldError("password", "Password must be at least 6 characters")
  const PasswordRequired := FieldError("password", "Password is required")

  /** The chains of POST /api/auth/signup, in order: a name that is non-blank
      after trimming, a valid email, a password of at least 6 characters. A
      missing field is read as the empty string, which fails each of them. */
  function SignupErrors(lib: Library, name: Option<string>, email: Option<string>, password: Option<string>): (errs: seq<FieldError>)
    ensures errs == [] <==>
      (name.Some? && lib.trim(name.value) != "") && (email.Some? && lib.isEmail(email.value)) && (password.Some? && |password.value| >= 6)
    ensures NameRequired in errs <==> !(name.Some? && lib.trim(name.value) != "")
    ensures InvalidEmail in errs <==> !(email.Some? && lib.isEmail(email.value))
    ensures PasswordTooShort in errs <==> !(password.Some? && |password.value| >= 6)
    ensures forall e :: e in errs ==> e == NameRequired || e == InvalidEmail || e == PasswordTooShort
  {
    Check(name.Some? && lib.trim(name.value) != "", NameRequired)
    + Check(email.Some? && lib.isEmail(email.value), InvalidEmail)
    + Check(password.Some? && |password.value| >= 6, PasswordTooShort)
  }

  /** The chains of POST /api/auth/login: a valid email and a non-empty password. */
  function LoginErrors(lib: Library, email: Option<string>, password: Option<string>): (errs: seq<FieldError>)
    ensures errs == [] <==> (email.Some? && lib.isEmail(email.value)) && (password.Some? && password.value != "")
    ensures InvalidEmail in errs <==> !(email.Some? && lib.isEmail(email.value))
    ensures PasswordRequired in errs <==> !(password.Some? && password.value != "")
    ensures forall e :: e in errs ==> e == InvalidEmail || e == PasswordRequired
  {
    Check(email.Some? && lib.isEmail(email.value), InvalidEmail)
    + Check(password.Some? && password.value != "", PasswordRequired)
  }

  /** The chains of PUT /api/auth/profile: both fields optional, but a present
      name must be non-blank after trimming and a present email valid. */
  function ProfileErrors(lib: Library, name: Option<string>, email: Option<string>): (errs: seq<FieldError>)
    ensures errs == [] <==> (name.None? || lib.trim(name.value) != "") && (email.None? || lib.isEmail(email.value))
    ensures NameEmpty in errs <==> (name.Some? && lib.trim(name.value) == "")
    ensures InvalidEmail in errs <==> (email.Some? && !lib.isEmail(email.value))
    ensures forall e :: e in errs ==> e == NameEmpty || e == InvalidEmail
  {
    Check(name.None? || lib.trim(name.value) != "", NameEmpty)
    + Check(email.None? || lib.isEmail(email.value), InvalidEmail)
  }

  /** The literal fields of one sample task. */
  datatype Seed = Seed(title: string, description: string, status: string, priority: string)

  const SeedData: seq<Seed> := [
    Seed("Welcome to TaskManager!", "This is a sample task. You can edit or delete it.", "pending", "low"),
    Seed("Complete your profile", "Update your profile information in the Profile section.", "in-progress", "medium"),
    Seed("Create your first task", "Click the \"+ New Task\" button to create your own task.", "pending", "high")
  ]

  /** The three sample tasks inserted for a new user, with consecutive ids and
      creation times starting from the given ones. */
  function SeedTasks(owner: UserId, firstId: TaskId, firstCreated: nat): (r: seq<Task>)
    ensures |r| == 3
    ensures forall i :: 0 <= i < |r| ==>
      && r[i].id == firstId + i && r[i].owner == owner && r[i].created == firstCreated + i
      && r[i].description.Some? && r[i].dueDate.None?
      && r[i].status in Statuses && r[i].priority in Priorities
    ensures r[0].title == "Welcome to TaskManager!" && r[0].status == "pending" && r[0].priority == "low"
    ensures r[0].description == Some("This is a sample task. You can edit or delete it.")
    ensures r[1].title == "Complete your profile" && r[1].status == "in-progress" && r[1].priority == "medium"
    ensures r[1].description == Some("Update your profile information in the Profile section.")
    ensures r[2].title == "Create your first task" && r[2].status == "pending" && r[2].priority == "high"
    ensures r[2].description == Some("Click the \"+ New Task\" button to create your own task.")
  {
    seq(3, i requires 0 <= i < 3 =>
      Task(firstId + i, owner, SeedData[i].title, Some(SeedData[i].description),
           SeedData[i].status, SeedData[i].priority, None, firstCreated + i))
  }
}
