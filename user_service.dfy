/**
 * The user registry: usernames and e-mails are unique, passwords are stored
 * hashed. The hasher (with the salt it would draw) and the verifier are
 * parameters. A call that raises before its commit leaves the store as it
 * was.
 */
module UserService {
  import opened Wrappers
  import opened Session
  import Ordering

  datatype UserCreate = UserCreate(username: string, email: string, password: string)

  /** Fields left out, or given as an empty string, are not changed. */
  datatype UserUpdate = UserUpdate(username: Option<string>, email: Option<string>, password: Option<string>)

  /** The `ValueError`s the service raises. */
  datatype UserError =
    | UsernameAlreadyRegistered
    | EmailAlreadyRegistered
    | UserNotFound
    | UsernameAlreadyTaken
    | EmailAlreadyTaken

  /** Whether an optional text is given and non-empty (Python truthiness). */
  predicate Informado(v: Option<string>) {
    v.Some? && v.value != ""
  }

  predicate UsernameEmUso(users: map<int, User>, username: string) {
    exists k :: k in users && users[k].username == username
  }

  predicate EmailEmUso(users: map<int, User>, email: string) {
    exists k :: k in users && users[k].email == email
  }

  /** Whether a user other than `id` holds the username. */
  predicate UsernameDeOutro(users: map<int, User>, username: string, id: int) {
    exists k :: k in users && k != id && users[k].username == username
  }

  predicate EmailDeOutro(users: map<int, User>, email: string, id: int) {
    exists k :: k in users && k != id && users[k].email == email
  }

  /** The unique columns of the users table. */
  predicate Unicos(users: map<int, User>) {
    && (forall a, b :: a in users && b in users && users[a].username == users[b].username ==> a == b)
    && (forall a, b :: a in users && b in users && users[a].email == users[b].email ==> a == b)
  }

  /**
   * Replacing a user by a row whose username and e-mail no other user holds
   * keeps both columns unique.
   */
  lemma SubstituicaoPreservaUnicos(users: map<int, User>, id: int, v: User)
    requires Unicos(users) && id in users
    requires !UsernameDeOutro(users, v.username, id) && !EmailDeOutro(users, v.email, id)
    ensures Unicos(users[id := v])
  {
  }

  /** A user's own username and e-mail are held by no other user while the columns are unique. */
  lemma ProprioNaoEDeOutro(users: map<int, User>, id: int)
    requires Unicos(users) && id in users
    ensures !UsernameDeOutro(users, users[id].username, id)
    ensures !EmailDeOutro(users, users[id].email, id)
  {
  }

  /** Whether a user other than `id` holds the username, by scanning the table. */
  method UsernameTomado(db: Database, username: string, id: int) returns (b: bool)
    requires db.Valid()
    ensures b <==> UsernameDeOutro(db.users, username, id)
  {
    var k := Ordering.FirstMatch(db.users, (u: User) => u.username == username && u.id != id);
    b := k.Some?;
    if !b {
      forall j | j in db.users && j != id && db.users[j].username == username ensures db.users[j].id == id {
      }
    }
  }

  method EmailTomado(db: Database, email: string, id: int) returns (b: bool)
    requires db.Valid()
    ensures b <==> EmailDeOutro(db.users, email, id)
  {
    var k := Ordering.FirstMatch(db.users, (u: User) => u.email == email && u.id != id);
    b := k.Some?;
    if !b {
      forall j | j in db.users && j != id && db.users[j].email == email ensures db.users[j].id == id {
      }
    }
  }

  /** The user whose column equals the value, if any (unique columns make it the only one). */
  method GetUserByUsername(db: Database, username: string) returns (r: Option<User>)
    requires db.Valid()
    ensures r.None? <==> forall k :: k in db.users ==> db.users[k].username != username
    ensures r.Some? ==> r.value.id in db.users && db.users[r.value.id] == r.value && r.value.username == username
    ensures r.Some? ==> forall k :: k in db.users && db.users[k].username == username ==> k == r.value.id
  {
    var k := Ordering.FirstMatch(db.users, (u: User) => u.username == username);
    if k.None? {
      return None;
    }
    r := Some(db.users[k.value]);
  }

  method GetUserByEmail(db: Database, email: string) returns (r: Option<User>)
    requires db.Valid()
    ensures r.None? <==> forall k :: k in db.users ==> db.users[k].email != email
    ensures r.Some? ==> r.value.id in db.users && db.users[r.value.id] == r.value && r.value.email == email
    ensures r.Some? ==> forall k :: k in db.users && db.users[k].email == email ==> k == r.value.id
  {
    var k := Ordering.FirstMatch(db.users, (u: User) => u.email == email);
    if k.None? {
      return None;
    }
    r := Some(db.users[k.value]);
  }

  /**
   * The commit of a new user whose username and e-mail are free: it is
   * stored under the next id and the schema invariant is kept.
   */
  method InserirUsuario(db: Database, u: User)
    requires db.Valid() && u.id == db.nextUserId
    requires !UsernameEmUso(db.users, u.username) && !EmailEmUso(db.users, u.email)
    modifies db`users, db`nextUserId
    ensures db.Valid()
    ensures db.users == old(db.users)[u.id := u] && u.id !in old(db.users)
    ensures db.nextUserId == old(db.nextUserId) + 1
  {
    assert u.id !in db.users;
    db.users := db.users[u.id := u];
    db.nextUserId := db.nextUserId + 1;
    assert db.KeysValid();
    assert db.RequestsReferenceClients() && db.QuotesReferenceRequests() && db.ReviewsReferenceRows();
  }

  /**
   * Registers a user; a taken username is reported before a taken e-mail.
   * The stored password is the hasher's output, never the plain text given.
   */
  method CreateUser(db: Database, user: UserCreate, hash: (nat, string) -> string, sal: nat)
    returns (r: Result<User, UserError>)
    requires db.Valid()
    modifies db`users, db`nextUserId
    ensures db.Valid()
    ensures r == Err(UsernameAlreadyRegistered) <==> UsernameEmUso(old(db.users), user.username)
    ensures r == Err(EmailAlreadyRegistered) <==>
      !UsernameEmUso(old(db.users), user.username) && EmailEmUso(old(db.users), user.email)
    ensures r.Ok? <==> !UsernameEmUso(old(db.users), user.username) && !EmailEmUso(old(db.users), user.email)
    ensures r.Err? ==> unchanged(db)
    ensures r.Ok? ==>
      && r.value == User(old(db.nextUserId), user.username, user.email, hash(sal, user.password))
      && r.value.id !in old(db.users)
      && db.users == old(db.users)[r.value.id := r.value]
  {
    var porNome := GetUserByUsername(db, user.username);
    if porNome.Some? {
      return Err(UsernameAlreadyRegistered);
    }
    var porEmail := GetUserByEmail(db, user.email);
    if porEmail.Some? {
      return Err(EmailAlreadyRegistered);
    }
    assert !UsernameEmUso(db.users, user.username) && !EmailEmUso(db.users, user.email);
    var u := User(db.nextUserId, user.username, user.email, hash(sal, user.password));
    InserirUsuario(db, u);
    r := Ok(u);
  }

  /** The user with that username when the password verifies against its hash; otherwise `None`. */
  method AuthenticateUser(db: Database, username: string, password: string, verify: (string, string) -> bool)
    returns (r: Option<User>)
    requires db.Valid()
    ensures r.Some? <==> exists k :: (k in db.users && db.users[k].username == username &&
                                      verify(password, db.users[k].hashedPassword))
    ensures r.Some? ==> r.value.id in db.users && db.users[r.value.id] == r.value && r.value.username == username
  {
    var u := GetUserByUsername(db, username);
    if u.None? {
      return None;
    }
    if !verify(password, u.value.hashedPassword) {
      return None;
    }
    r := u;
  }

  /** The user after an update that passes the uniqueness checks. */
  function Atualizado(u: User, upd: UserUpdate, hash: (nat, string) -> string, sal: nat): (v: User)
    ensures v.id == u.id
    ensures v.username == (if Informado(upd.username) then upd.username.value else u.username)
    ensures v.email == (if Informado(upd.email) then upd.email.value else u.email)
    ensures v.hashedPassword == (if Informado(upd.password) then hash(sal, upd.password.value) else u.hashedPassword)
  {
    var u1 := if Informado(upd.username) then u.(username := upd.username.value) else u;
    var u2 := if Informado(upd.email) then u1.(email := upd.email.value) else u1;
    if Informado(upd.password) then u2.(hashedPassword := hash(sal, upd.password.value)) else u2
  }

  /**
   * The commit of a changed user whose username and e-mail no other user
   * holds: only that row changes and the schema invariant is kept.
   */
  method SubstituirUsuario(db: Database, u: User)
    requires db.Valid() && u.id in db.users
    requires !UsernameDeOutro(db.users, u.username, u.id) && !EmailDeOutro(db.users, u.email, u.id)
    modifies db`users
    ensures db.Valid()
    ensures db.users == old(db.users)[u.id := u]
  {
    assert Unicos(db.users);
    SubstituicaoPreservaUnicos(db.users, u.id, u);
    db.users := db.users[u.id := u];
    assert db.KeysValid();
    assert db.RequestsReferenceClients() && db.QuotesReferenceRequests() && db.ReviewsReferenceRows();
    assert db.UniqueColumns();
  }

  /**
   * Updates the given fields of a user. A new username or e-mail held by a
   * different user is refused, so the unique columns stay unique; the
   * password is rehashed only when a new one is given.
   */
  method UpdateUser(db: Database, userId: int, upd: UserUpdate, hash: (nat, string) -> string, sal: nat)
    returns (r: Result<User, UserError>)
    requires db.Valid()
    modifies db`users
    ensures db.Valid()
    ensures r == Err(UserNotFound) <==> userId !in old(db.users)
    ensures r == Err(UsernameAlreadyTaken) <==>
      userId in old(db.users) && Informado(upd.username) && UsernameDeOutro(old(db.users), upd.username.value, userId)
    ensures r == Err(EmailAlreadyTaken) <==>
      && userId in old(db.users)
      && !(Informado(upd.username) && UsernameDeOutro(old(db.users), upd.username.value, userId))
      && Informado(upd.email) && EmailDeOutro(old(db.users), upd.email.value, userId)
    ensures r.Ok? <==>
      && userId in old(db.users)
      && !(Informado(upd.username) && UsernameDeOutro(old(db.users), upd.username.value, userId))
      && !(Informado(upd.email) && EmailDeOutro(old(db.users), upd.email.value, userId))
    ensures r.Err? ==> unchanged(db)
    ensures r.Ok? ==>
      && userId in old(db.users)
      && r.value == Atualizado(old(db.users)[userId], upd, hash, sal)
      && db.users == old(db.users)[userId := r.value]
  {
    if userId !in db.users {
      return Err(UserNotFound);
    }
    assert Unicos(db.users);
    ProprioNaoEDeOutro(db.users, userId);
    var user := db.users[userId];
    if Informado(upd.username) {
      var tomado := UsernameTomado(db, upd.username.value, userId);
      if tomado {
        return Err(UsernameAlreadyTaken);
      }
      user := user.(username := upd.username.value);
    }
    if Informado(upd.email) {
      var tomado := EmailTomado(db, upd.email.value, userId);
      if tomado {
        return Err(EmailAlreadyTaken);
      }
      user := user.(email := upd.email.value);
    }
    if Informado(upd.password) {
      user := user.(hashedPassword := hash(sal, upd.password.value));
    }
    assert user == Atualizado(db.users[userId], upd, hash, sal);
    SubstituirUsuario(db, user);
    r := Ok(user);
  }
}
