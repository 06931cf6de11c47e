/**
 * The in-memory user store of the `/auth` router: a dictionary from email
 * to user entry and a global id counter. Password hashing, password
 * checking, token creation and token decoding are given as functions the
 * model does not interpret.
 */
module Auth {
  import opened Basics

  const LocalProvider := "local"
  const BearerType := "bearer"

  /** A stored user (`fake_users_db[email]`). */
  datatype UserEntry = UserEntry(id: int, email: string, name: string, hashedPassword: string, provider: string)

  /** A user as the API returns it: the entry without its password hash. */
  datatype User = User(id: int, email: string, name: string, provider: string)

  datatype Token = Token(accessToken: string, tokenType: string)

  /** A decoded token: its `sub` claim, if it has one. */
  datatype Payload = Payload(sub: Option<string>)

  const EmailTaken := HttpError(400, "Email já cadastrado")
  const BadCredentials := HttpError(401, "Email ou senha incorretos")
  const InvalidToken := HttpError(401, "Token inválido ou expirado")
  const UnknownUser := HttpError(401, "Usuário não encontrado")

  function PublicView(e: UserEntry): (u: User)
    ensures u.id == e.id && u.email == e.email && u.name == e.name && u.provider == e.provider
  {
    User(e.id, e.email, e.name, e.provider)
  }

  class UserStore {
    /** `fake_users_db` */
    var users: map<string, UserEntry>
    /** `user_id_counter`: the last id handed out. */
    var counter: int

    /** Entries are filed under their own email, ids were handed out by the counter, and no two users share an id. */
    ghost predicate Valid()
      reads this
    {
      && counter >= 0
      && (forall e :: e in users ==> users[e].email == e && 1 <= users[e].id <= counter)
      && (forall a, b :: a in users && b in users && a != b ==> users[a].id != users[b].id)
    }

    constructor ()
      ensures Valid() && users == map[] && counter == 0
    {
      users := map[];
      counter := 0;
    }

    /** `POST /auth/register`. */
    method Register(email: string, name: string, password: string, hash: string -> string) returns (r: Result<User>)
      requires Valid()
      modifies this
      ensures Valid()
      ensures email in old(users) ==>
        r == Err(EmailTaken) && users == old(users) && counter == old(counter)
      ensures email !in old(users) ==>
        && counter == old(counter) + 1
        && users == old(users)[email := UserEntry(counter, email, name, hash(password), LocalProvider)]
        && r == Ok(PublicView(users[email]))
        && (forall e :: e in old(users) ==> old(users)[e].id < counter)
    {
      if email in users {
        return Err(EmailTaken);
      }
      counter := counter + 1;
      var entry := UserEntry(counter, email, name, hash(password), LocalProvider);
      users := users[email := entry];
      r := Ok(PublicView(entry));
    }

    /** `POST /auth/login`: an unknown email and a wrong password fail alike. */
    function Login(email: string, password: string, verify: (string, string) -> bool, createToken: string -> string): (r: Result<Token>)
      reads this
      ensures r.Ok? <==> email in users && verify(password, users[email].hashedPassword)
      ensures r.Ok? ==> r.value == Token(createToken(email), BearerType)
      ensures r.Err? ==> r.error == BadCredentials
    {
      if email !in users then Err(BadCredentials)
      else if !verify(password, users[email].hashedPassword) then Err(BadCredentials)
      else Ok(Token(createToken(email), BearerType))
    }

    /** `get_current_user`: the stored user named by the token's `sub`. */
    function GetCurrentUser(token: string, decode: string -> Option<Payload>): (r: Result<User>)
      reads this
      ensures decode(token).None? ==> r == Err(InvalidToken)
      ensures r.Ok? <==> decode(token).Some? && decode(token).value.sub.Some? && decode(token).value.sub.value in users
      ensures r.Ok? ==> r.value == PublicView(users[decode(token).value.sub.value])
      ensures r.Err? && decode(token).Some? ==> r.error == UnknownUser
    {
      match decode(token)
      case None => Err(InvalidToken)
      case Some(payload) =>
        match payload.sub
        case None => Err(UnknownUser)
        case Some(email) =>
          if email in users then Ok(PublicView(users[email])) else Err(UnknownUser)
    }
  }

  /** A user registered with a password whose hash `verify` accepts can then log in, and the token names that email. */
  method RegisterThenLogin(store: UserStore, email: string, name: string, password: string,
                           hash: string -> string, verify: (string, string) -> bool, createToken: string -> string)
    returns (registered: Result<User>, login: Result<Token>)
    requires store.Valid() && email !in store.users
    requires verify(password, hash(password))
    modifies store
    ensures registered.Ok? && login == Ok(Token(createToken(email), BearerType))
  {
    registered := store.Register(email, name, password, hash);
    login := store.Login(email, password, verify, createToken);
  }
}
