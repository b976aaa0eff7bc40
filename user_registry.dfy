/** The backend's user registry: the `/register` and `/login` routes over the table of
    users. The table is kept in insertion order, so a query's `.first()` is the first
    matching row, and a new row gets the next free id. */
module UserRegistry {
  import opened Wrappers

  /** A row of the `user` table. */
  datatype User = User(id: nat, username: string, email: string, passwordHash: string)

  /** werkzeug's `generate_password_hash(password)`, with its random salt made a
      parameter, and `check_password_hash(hash, password)`. */
  datatype PasswordHasher = PasswordHasher(hash: (string, string) -> string, check: (string, string) -> bool)

  /** The one property the registry relies on: a hash made from a password checks
      against that password. */
  ghost predicate Sound(h: PasswordHasher) {
    forall password, salt :: h.check(h.hash(password, salt), password)
  }

  /** `User.set_password`: replaces the stored hash and nothing else. */
  function SetPassword(u: User, password: string, salt: string, h: PasswordHasher): (r: User)
    ensures r.id == u.id && r.username == u.username && r.email == u.email
    ensures Sound(h) ==> CheckPassword(r, password, h)
  {
    u.(passwordHash := h.hash(password, salt))
  }

  /** `User.check_password` */
  function CheckPassword(u: User, password: string, h: PasswordHasher): (r: bool)
    ensures Sound(h) && (exists salt :: u.passwordHash == h.hash(password, salt)) ==> r
  {
    h.check(u.passwordHash, password)
  }

  /** The table: its rows in insertion order and the id the next row will get. */
  datatype Table = Table(users: seq<User>, nextId: nat)

  /** The `unique=True` constraints on `username` and `email`, and the primary key:
      ids are increasing in insertion order and below `nextId`. */
  predicate Valid(t: Table) {
    && (forall i, j | 0 <= i < j < |t.users| ::
          && t.users[i].username != t.users[j].username
          && t.users[i].email != t.users[j].email
          && t.users[i].id < t.users[j].id)
    && (forall i | 0 <= i < |t.users| :: t.users[i].id < t.nextId)
  }

  /** A JSON field as Python's `not value` sees it: given when present and non-empty. */
  predicate Given(field: Option<string>) {
    field.Some? && field.value != ""
  }

  predicate UsernameTaken(users: seq<User>, name: string) {
    exists i | 0 <= i < |users| :: users[i].username == name
  }

  predicate EmailTaken(users: seq<User>, email: string) {
    exists i | 0 <= i < |users| :: users[i].email == email
  }

  /** `User.query.filter_by(...).first()`: the index of the first row that matches. */
  function FirstMatch(users: seq<User>, matches: User -> bool): (r: Option<nat>)
    ensures r.Some? ==> r.value < |users| && matches(users[r.value])
    ensures r.Some? ==> forall j | 0 <= j < r.value :: !matches(users[j])
    ensures r.None? ==> forall j | 0 <= j < |users| :: !matches(users[j])
  {
    if users == [] then None
    else if matches(users[0]) then Some(0)
    else match FirstMatch(users[1..], matches)
      case None => None
      case Some(k) => Some(k + 1)
  }

  // ---------------------------------------------------------------------------
  // POST /register

  datatype RegisterRequest = RegisterRequest(username: Option<string>, email: Option<string>, password: Option<string>)

  predicate Complete(req: RegisterRequest) {
    Given(req.username) && Given(req.email) && Given(req.password)
  }

  datatype RegisterReply =
    | Created(userId: nat)
    | IncompleteData
    | UsernameExists
    | EmailExists
    | RegisterError(reason: string)
  {
    function Status(): int {
      match this
      case Created(_) => 201
      case IncompleteData => 400
      case UsernameExists => 409
      case EmailExists => 409
      case RegisterError(_) => 500
    }

    function Message(): string {
      match this
      case Created(_) => "Usuário registrado com sucesso!"
      case IncompleteData => "Dados incompletos: username, email e password são obrigatórios."
      case UsernameExists => "Nome de usuário já existe."
      case EmailExists => "Email já existe."
      case RegisterError(reason) => "Erro ao registrar usuário: " + reason
    }
  }

  /** The table and the reply after `/register` with `req`. `salt` is the salt the
      hasher draws; `commitError` is the exception `commit` raises, if any. */
  function RegisterOutcome(t: Table, req: RegisterRequest, salt: string, h: PasswordHasher,
                           commitError: Option<string>): (r: (Table, RegisterReply))
    // a missing or empty field is a 400, and the table is untouched
    ensures r.1.Status() == 400 <==> !Complete(req)
    // the username conflict is reported first, whatever the email
    ensures Complete(req) && UsernameTaken(t.users, req.username.value) ==> r.1 == UsernameExists
    ensures Complete(req) && !UsernameTaken(t.users, req.username.value) && EmailTaken(t.users, req.email.value)
      ==> r.1 == EmailExists
    ensures r.1.Status() == 409 <==>
      Complete(req) && (UsernameTaken(t.users, req.username.value) || EmailTaken(t.users, req.email.value))
    // a failed commit is rolled back and reported as a 500
    ensures r.1.Status() == 500 <==>
      Complete(req) && !UsernameTaken(t.users, req.username.value) && !EmailTaken(t.users, req.email.value)
      && commitError.Some?
    // success adds exactly one row, with a hash of the password, under a fresh id
    ensures r.1.Status() == 201 <==> r.1.Created?
    ensures r.1.Created? ==>
      && r.1.userId == t.nextId
      && r.0.nextId == t.nextId + 1
      && r.0.users == t.users + [User(t.nextId, req.username.value, req.email.value, h.hash(req.password.value, salt))]
    ensures !r.1.Created? ==> r.0 == t
    // the uniqueness constraints are never broken
    ensures Valid(t) ==> Valid(r.0)
  {
    if !Complete(req) then (t, IncompleteData)
    else
      var username, email, password := req.username.value, req.email.value, req.password.value;
      match FirstMatch(t.users, (u: User) => u.username == username)
      case Some(i) => (t, UsernameExists)
      case None =>
        match FirstMatch(t.users, (u: User) => u.email == email)
        case Some(i) =>
          assert !UsernameTaken(t.users, username);
          (t, EmailExists)
        case None =>
          var newUser := SetPassword(User(t.nextId, username, email, ""), password, salt, h);
          if commitError.Some? then (t, RegisterError(commitError.value))
          else (Table(t.users + [newUser], t.nextId + 1), Created(newUser.id))
  }

  // ---------------------------------------------------------------------------
  // POST /login

  datatype LoginRequest = LoginRequest(username: Option<string>, password: Option<string>)

  datatype LoginReply =
    | LoginOk(userId: nat, username: string)
    | MissingCredentials
    | InvalidCredentials
  {
    function Status(): int {
      match this
      case LoginOk(_, _) => 200
      case MissingCredentials => 400
      case InvalidCredentials => 401
    }

    function Message(): string {
      match this
      case LoginOk(_, _) => "Login bem-sucedido!"
      case MissingCredentials => "Username e password são obrigatórios."
      case InvalidCredentials => "Username ou senha inválidos."
    }
  }

  /** The reply to `/login` with `req`. An unknown user and a wrong password give the
      same reply, so the same status and message. */
  function Login(t: Table, req: LoginRequest, h: PasswordHasher): (r: LoginReply)
    ensures r == MissingCredentials <==> !Given(req.username) || !Given(req.password)
    ensures r.LoginOk? ==> exists i | 0 <= i < |t.users| ::
      && t.users[i].id == r.userId
      && t.users[i].username == r.username == req.username.value
      && CheckPassword(t.users[i], req.password.value, h)
    ensures Given(req.username) && Given(req.password) && !UsernameTaken(t.users, req.username.value)
      ==> r == InvalidCredentials
    ensures Valid(t) && Given(req.username) && Given(req.password) ==>
      (r == InvalidCredentials <==>
         forall i | 0 <= i < |t.users| && t.users[i].username == req.username.value ::
           !CheckPassword(t.users[i], req.password.value, h))
  {
    if !Given(req.username) || !Given(req.password) then MissingCredentials
    else
      var username, password := req.username.value, req.password.value;
      match FirstMatch(t.users, (u: User) => u.username == username)
      case None => InvalidCredentials
      case Some(i) =>
        var user := t.users[i];
        if !CheckPassword(user, password, h) then InvalidCredentials
        else LoginOk(user.id, user.username)
  }

  /** Registering and then logging in with the same username and password succeeds,
      with the id the registration returned. */
  lemma RegisterThenLogin(t: Table, req: RegisterRequest, salt: string, h: PasswordHasher)
    requires Valid(t) && Sound(h)
    requires RegisterOutcome(t, req, salt, h, None).1.Created?
    ensures
      var (t', reply) := RegisterOutcome(t, req, salt, h, None);
      Login(t', LoginRequest(req.username, req.password), h) == LoginOk(reply.userId, req.username.value)
  {
    var (t', reply) := RegisterOutcome(t, req, salt, h, None);
    var login := LoginRequest(req.username, req.password);
    var n := |t.users|;
    assert t'.users[n].username == req.username.value;
    assert CheckPassword(t'.users[n], req.password.value, h);
    var r := Login(t', login, h);
    assert r.LoginOk?;
    var i :| 0 <= i < |t'.users| && t'.users[i].id == r.userId && t'.users[i].username == r.username;
    assert i == n;
  }

  /** The registry as the running server holds it. */
  class UserTable {
    var users: seq<User>
    var nextId: nat

    function State(): Table
      reads this
    {
      Table(users, nextId)
    }

    /** `db.create_all()` on an empty database: no users, ids start at 1. */
    constructor ()
      ensures State() == Table([], 1) && Valid(State())
    {
      users := [];
      nextId := 1;
    }

    /** The `/register` route. */
    method Register(req: RegisterRequest, salt: string, h: PasswordHasher, commitError: Option<string>)
      returns (reply: RegisterReply)
      modifies this
      ensures (State(), reply) == RegisterOutcome(old(State()), req, salt, h, commitError)
      ensures old(Valid(State())) ==> Valid(State())
    {
      var username, email, password := req.username, req.email, req.password;
      if !Given(username) || !Given(email) || !Given(password) {
        return IncompleteData;
      }
      if FirstMatch(users, (u: User) => u.username == username.value).Some? {
        return UsernameExists;
      }
      if FirstMatch(users, (u: User) => u.email == email.value).Some? {
        return EmailExists;
      }
      var newUser := User(nextId, username.value, email.value, "");
      newUser := SetPassword(newUser, password.value, salt, h);
      var savedUsers, savedNextId := users, nextId;
      users, nextId := users + [newUser], nextId + 1;   // db.session.add
      if commitError.Some? {
        users, nextId := savedUsers, savedNextId;        // db.session.rollback
        return RegisterError(commitError.value);
      }
      reply := Created(newUser.id);
    }
  }
}
