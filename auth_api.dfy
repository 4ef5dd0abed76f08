/** Authentication (`auth.py`): the module-level `users_db`, extended by
    registration and read by login and the profile lookup. Password hashing
    is an injective tag and token decoding a given function. */
module AuthApi {
  import opened Common

  /** A stored password hash; distinct passwords hash differently and a
      password checks against exactly its own hash. */
  datatype Hash = Hashed(password: string)

  function CheckPassword(h: Hash, password: string): bool
  {
    h == Hashed(password)
  }

  datatype User = User(id: int, email: string, password: Hash, name: string, role: string)

  /** What a response shows of a user: everything but the password. */
  datatype PublicUser = PublicUser(id: int, email: string, name: string, role: string)

  /** The claims a login token carries; expiry is not modelled. */
  datatype Claims = Claims(userId: int, email: string, role: string)

  datatype Session = Session(token: Claims, user: PublicUser)

  /** What decoding a bearer token yields: its `user_id` claim, a payload
      without that claim, an expired signature, or any other invalid token. */
  datatype Decoded = Valid(userId: int) | NoUserId | Expired | Invalid

  datatype Error =
    | MissingCredentials
    | InvalidCredentials
    | MissingFields
    | EmailTaken
    | TokenRequired
    | TokenExpired
    | TokenInvalid
    | UserNotFound
    | ServerError

  function StatusCode(e: Error): int
  {
    match e
    case MissingCredentials => 400
    case MissingFields => 400
    case EmailTaken => 400
    case UserNotFound => 404
    case ServerError => 500
    case _ => 401
  }

  function Public(u: User): PublicUser
  {
    PublicUser(u.id, u.email, u.name, u.role)
  }

  const SeedUsers: seq<User> := [
    User(1, "cliente@ejemplo.com", Hashed("123456"), "Cliente Demo", "customer"),
    User(2, "negocio@ejemplo.com", Hashed("123456"), "Negocio Demo", "business")
  ]

  /** A string field is missing when absent or empty. */
  predicate Blank(s: Option<string>)
  {
    s.None? || s.value == ""
  }

  function FindByEmail(users: seq<User>, email: string): (k: Option<nat>)
    ensures k.Some? ==> k.value < |users| && users[k.value].email == email
    ensures k.Some? ==> forall j :: 0 <= j < k.value ==> users[j].email != email
    ensures k.None? ==> forall j :: 0 <= j < |users| ==> users[j].email != email
  {
    if users == [] then None
    else if users[0].email == email then Some(0)
    else match FindByEmail(users[1..], email)
      case None => None
      case Some(k) => Some(k + 1)
  }

  function FindById(users: seq<User>, id: int): (k: Option<nat>)
    ensures k.Some? ==> k.value < |users| && users[k.value].id == id
    ensures k.None? ==> forall j :: 0 <= j < |users| ==> users[j].id != id
    ensures k.Some? ==> forall j :: 0 <= j < k.value ==> users[j].id != id
  {
    if users == [] then None
    else if users[0].id == id then Some(0)
    else match FindById(users[1..], id)
      case None => None
      case Some(k) => Some(k + 1)
  }

  /** `login`: succeeds exactly when some user has that email and the first
      such user's hash checks against the password. */
  function Login(users: seq<User>, email: Option<string>, password: Option<string>): (r: Result<Session, Error>)
    ensures Blank(email) || Blank(password) <==> r == Err(MissingCredentials)
    ensures r.Ok? ==>
      exists i :: 0 <= i < |users| && users[i].email == email.value
        && CheckPassword(users[i].password, password.value) && r.value.user == Public(users[i])
        && r.value.token == Claims(users[i].id, users[i].email, users[i].role)
    ensures !Blank(email) && !Blank(password) && r.Err? ==> r.error == InvalidCredentials
  {
    if Blank(email) || Blank(password) then Err(MissingCredentials)
    else match FindByEmail(users, email.value)
      case None => Err(InvalidCredentials)
      case Some(k) =>
        if !CheckPassword(users[k].password, password.value) then Err(InvalidCredentials)
        else Ok(Session(Claims(users[k].id, users[k].email, users[k].role), Public(users[k])))
  }

  /** The new user `register` would append, or why it refuses. */
  function Registration(users: seq<User>, email: Option<string>, password: Option<string>,
                        name: Option<string>, role: Option<string>): (r: Result<User, Error>)
    ensures Blank(email) || Blank(password) || Blank(name) ==> r == Err(MissingFields)
    ensures !(Blank(email) || Blank(password) || Blank(name)) ==>
      (r == Err(EmailTaken) <==> exists i :: 0 <= i < |users| && users[i].email == email.value)
    ensures !(Blank(email) || Blank(password) || Blank(name)) && (forall i :: 0 <= i < |users| ==> users[i].email != email.value) ==>
      r.Ok?
    ensures r.Ok? ==> r.value.id == |users| + 1 && r.value.email == email.value
    ensures r.Ok? ==> CheckPassword(r.value.password, password.value) && r.value.name == name.value
    ensures r.Ok? ==> r.value.role == (if role.Some? then role.value else "customer")
  {
    if Blank(email) || Blank(password) || Blank(name) then Err(MissingFields)
    else if FindByEmail(users, email.value).Some? then Err(EmailTaken)
    else Ok(User(|users| + 1, email.value, Hashed(password.value), name.value,
                 if role.Some? then role.value else "customer"))
  }

  /** The characters of `s` before its first space (`split(' ')` keeps the
      first field). */
  function UpToSpace(s: string): (r: string)
    ensures |r| <= |s| && r == s[..|r|] && ' ' !in r
    ensures |r| < |s| ==> s[|r|] == ' '
  {
    if s == [] || s[0] == ' ' then []
    else
      var rest := UpToSpace(s[1..]);
      assert s[..|rest| + 1] == [s[0]] + s[1..][..|rest|];
      [s[0]] + rest
  }

  const BearerPrefix: string := "Bearer "

  /** The header is present and starts with `"Bearer "`. */
  predicate Bearer(header: Option<string>)
  {
    header.Some? && |BearerPrefix| <= |header.value| && header.value[..|BearerPrefix|] == BearerPrefix
  }

  /** `token.split(' ')[1]`: the field after the first space. */
  function TokenOf(header: Option<string>): string
    requires Bearer(header)
  {
    UpToSpace(header.value[|BearerPrefix|..])
  }

  /** `get_profile`: the header must start with `"Bearer "`; the token is
      the field after that first space. An expired or otherwise invalid
      token is a 401, a valid one naming no stored user a 404; a payload
      without `user_id` raises outside the handled exceptions, a 500. */
  function Profile(users: seq<User>, header: Option<string>, decode: string -> Decoded): (r: Result<PublicUser, Error>)
    ensures !Bearer(header) <==> r == Err(TokenRequired)
    ensures Bearer(header) && decode(TokenOf(header)).Expired? ==> r == Err(TokenExpired)
    ensures Bearer(header) && decode(TokenOf(header)).Invalid? ==> r == Err(TokenInvalid)
    ensures Bearer(header) && decode(TokenOf(header)).NoUserId? ==> r == Err(ServerError)
    ensures Bearer(header) && decode(TokenOf(header)).Valid? ==>
      var id := decode(TokenOf(header)).userId;
      ((forall i :: 0 <= i < |users| ==> users[i].id != id) <==> r == Err(UserNotFound))
      && (r.Ok? ==>
            exists k :: 0 <= k < |users| && users[k].id == id && r.value == Public(users[k])
              && forall j :: 0 <= j < k ==> users[j].id != id)
    ensures r.Ok? ==> Bearer(header) && decode(TokenOf(header)).Valid?
  {
    if !Bearer(header) then Err(TokenRequired)
    else
      match decode(TokenOf(header))
      case Expired => Err(TokenExpired)
      case Invalid => Err(TokenInvalid)
      case NoUserId => Err(ServerError)
      case Valid(id) =>
        match FindById(users, id)
        case None => Err(UserNotFound)
        case Some(k) => Ok(Public(users[k]))
  }

  /** Emails are unique and ids run 1, 2, 3, ... in table order. */
  ghost predicate WellFormed(users: seq<User>)
  {
    (forall i, j :: 0 <= i < j < |users| ==> users[i].email != users[j].email)
    && (forall i :: 0 <= i < |users| ==> users[i].id == i + 1)
  }

  /** The module-level `users_db`. */
  class Users {
    var users: seq<User>

    ghost predicate Valid()
      reads this
    {
      WellFormed(users)
    }

    constructor ()
      ensures Valid() && users == SeedUsers
    {
      users := SeedUsers;
    }

    /** `register`: appends the new user once, or nothing on refusal. */
    method Register(email: Option<string>, password: Option<string>,
                    name: Option<string>, role: Option<string>) returns (r: Result<PublicUser, Error>)
      requires Valid()
      modifies this
      ensures Valid()
      ensures var outcome := Registration(old(users), email, password, name, role);
        match outcome
        case Ok(u) => users == old(users) + [u] && r == Ok(Public(u))
        case Err(e) => users == old(users) && r == Err(e)
    {
      var outcome := Registration(users, email, password, name, role);
      match outcome {
        case Ok(u) =>
          users := users + [u];
          r := Ok(Public(u));
        case Err(e) =>
          r := Err(e);
      }
    }
  }

  /** Registering and then logging in with the same email and password
      succeeds and shows the new user. */
  lemma RegisterThenLogin(users: seq<User>, email: string, password: string, name: string, role: Option<string>)
    requires email != "" && password != "" && name != ""
    requires forall i :: 0 <= i < |users| ==> users[i].email != email
    ensures Registration(users, Some(email), Some(password), Some(name), role).Ok?
    ensures var u := Registration(users, Some(email), Some(password), Some(name), role).value;
      Login(users + [u], Some(email), Some(password)) == Ok(Session(Claims(u.id, u.email, u.role), Public(u)))
  {
    var u := Registration(users, Some(email), Some(password), Some(name), role).value;
    var all := users + [u];
    assert FindByEmail(users, email).None?;
    assert all[|users|].email == email;
    assert FindByEmail(all, email) == Some(|users|);
  }

  /** With unique emails, login succeeds exactly for a stored user's own
      password. */
  lemma LoginExact(users: seq<User>, k: int, password: string)
    requires WellFormed(users) && 0 <= k < |users| && users[k].email != "" && password != ""
    ensures Login(users, Some(users[k].email), Some(password)).Ok? <==> users[k].password == Hashed(password)
  {
    var found := FindByEmail(users, users[k].email);
    assert found.Some?;
    assert found.value == k;
  }

  /** An email already present cannot be registered again. */
  lemma RegisterTwiceRefused(users: seq<User>, email: string, password: string, name: string,
                             role: Option<string>, password2: string, name2: string, role2: Option<string>)
    requires email != "" && password != "" && name != "" && password2 != "" && name2 != ""
    requires forall i :: 0 <= i < |users| ==> users[i].email != email
    ensures var u := Registration(users, Some(email), Some(password), Some(name), role).value;
      Registration(users + [u], Some(email), Some(password2), Some(name2), role2) == Err(EmailTaken)
  {
    var u := Registration(users, Some(email), Some(password), Some(name), role).value;
    assert (users + [u])[|users|].email == email;
  }
}
