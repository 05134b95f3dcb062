/** Registration, login and token verification over a store of user rows.
    bcrypt, jsonwebtoken and encodeURIComponent are foreign calls: they enter
    as the uninterpreted functions of a `Crypto` value. */
module Auth {
  import opened Common

  const SaltRounds := 10
  const TokenLifetime := "30d"
  const DefaultSecret := "your-secret-key-change-in-production"

  const EmailTaken := "Email already exists"
  const UsernameTaken := "Username already exists"
  const InvalidCredentials := "Invalid email or password"
  const InvalidToken := "Invalid token"

  /** The claims a token carries. */
  datatype Claims = Claims(userId: int, email: string)

  /** The foreign calls, as functions nothing is known about. */
  datatype Crypto = Crypto(
    hash: (string, nat) -> string,             // bcrypt.hash(password, rounds)
    compare: (string, string) -> bool,         // bcrypt.compare(password, hashed)
    sign: (Claims, string, string) -> string,  // jwt.sign(claims, secret, {expiresIn})
    verify: (string, string) -> Option<Claims>, // jwt.verify(token, secret); None when it throws
    encodeUri: string -> string)               // encodeURIComponent

  /** `process.env.JWT_SECRET || DefaultSecret`. */
  function JwtSecret(env: Option<string>): (r: string)
    ensures r != ""
    ensures env.Some? && env.value != "" ==> r == env.value
    ensures env.None? || env.value == "" ==> r == DefaultSecret
  {
    if env.Some? && env.value != "" then env.value else DefaultSecret
  }

  /** A stored user: email and password hash may be NULL. */
  datatype StoredUser = StoredUser(
    id: int,
    username: string,
    email: Option<string>,
    password: Option<string>,
    name: string,
    avatar: Option<string>)

  /** `AuthUser`: what a reply exposes about a user; no password field. */
  datatype AuthUser = AuthUser(id: int, username: string, email: string, name: string, avatar: Option<string>)

  datatype AuthReply = AuthReply(token: string, user: AuthUser)

  datatype Registration = Registration(username: string, email: string, password: string, name: string)

  /** The two queries registration and login run against the store. */
  datatype Key = ByEmail(email: string) | ByUsername(username: string)

  predicate Matches(u: StoredUser, key: Key) {
    match key
    case ByEmail(e) => u.email == Some(e)
    case ByUsername(n) => u.username == n
  }

  /** getUserByEmail / getUserByUsername: the first row the query matches. */
  function Lookup(rows: seq<StoredUser>, key: Key): (r: Option<StoredUser>)
    ensures r.None? <==> forall i :: 0 <= i < |rows| ==> !Matches(rows[i], key)
    ensures r.Some? ==> r.value in rows && Matches(r.value, key)
    ensures r.Some? ==>
      exists i :: 0 <= i < |rows| && rows[i] == r.value && forall j :: 0 <= j < i ==> !Matches(rows[j], key)
  {
    if rows == [] then None
    else if Matches(rows[0], key) then Some(rows[0])
    else Lookup(rows[1..], key)
  }

  /** Appending a row nothing earlier matches makes it the row found. */
  lemma {:induction false} LookupAppended(rows: seq<StoredUser>, u: StoredUser, key: Key)
    requires Lookup(rows, key).None? && Matches(u, key)
    ensures Lookup(rows + [u], key) == Some(u)
  {
    if rows != [] {
      assert (rows + [u])[1..] == rows[1..] + [u];
      LookupAppended(rows[1..], u, key);
    }
  }

  /** `!user.password` is false only for a non-empty stored hash. */
  predicate HasPassword(u: StoredUser) {
    u.password.Some? && u.password.value != ""
  }

  function AvatarUrl(name: string, crypto: Crypto): string {
    "https://ui-avatars.com/api/?name=" + crypto.encodeUri(name) + "&background=C6FF00&color=000"
  }

  /** The row registration inserts under the next serial id. */
  function NewUser(id: int, data: Registration, crypto: Crypto): (u: StoredUser)
    ensures u.id == id && u.username == data.username && u.name == data.name
    ensures u.email == Some(data.email)
    ensures u.password == Some(crypto.hash(data.password, SaltRounds))
    ensures u.avatar == Some(AvatarUrl(data.name, crypto))
  {
    StoredUser(id, data.username, Some(data.email), Some(crypto.hash(data.password, SaltRounds)),
               data.name, Some(AvatarUrl(data.name, crypto)))
  }

  /** The token and public fields returned for a user found or created. */
  function Reply(u: StoredUser, crypto: Crypto, secret: string): (r: AuthReply)
    requires u.email.Some?
    ensures r.token == crypto.sign(Claims(u.id, u.email.value), secret, TokenLifetime)
    ensures r.user == AuthUser(u.id, u.username, u.email.value, u.name, u.avatar)
  {
    AuthReply(crypto.sign(Claims(u.id, u.email.value), secret, TokenLifetime),
              AuthUser(u.id, u.username, u.email.value, u.name, u.avatar))
  }

  /** loginUser(email, password): every failure carries the same message. */
  function Login(rows: seq<StoredUser>, email: string, password: string, crypto: Crypto, secret: string): (r: Result<AuthReply>)
    ensures r.Err? ==> r.error == InvalidCredentials
    ensures r.Ok? <==>
      var found := Lookup(rows, ByEmail(email));
      found.Some? && HasPassword(found.value) && crypto.compare(password, found.value.password.value)
    ensures r.Ok? ==>
      var u := Lookup(rows, ByEmail(email)).value;
      && u.email == Some(email)
      && r.value.token == crypto.sign(Claims(u.id, email), secret, TokenLifetime)
      && r.value.user == AuthUser(u.id, u.username, email, u.name, u.avatar)
  {
    var found := Lookup(rows, ByEmail(email));
    if found.None? || !HasPassword(found.value) then Err(InvalidCredentials)
    else if !crypto.compare(password, found.value.password.value) then Err(InvalidCredentials)
    else Ok(Reply(found.value, crypto, secret))
  }

  /** verifyToken(token): decoded claims, or one message for any failure. */
  function VerifyToken(token: string, crypto: Crypto, secret: string): (r: Result<Claims>)
    ensures crypto.verify(token, secret).Some? ==> r == Ok(crypto.verify(token, secret).value)
    ensures crypto.verify(token, secret).None? ==> r == Err(InvalidToken)
  {
    match crypto.verify(token, secret)
    case Some(claims) => Ok(claims)
    case None => Err(InvalidToken)
  }

  /** What the libraries are relied on for: a hash checks against its
      password, and a token verifies, under the same secret, to its claims. */
  ghost predicate SoundLibraries(crypto: Crypto) {
    && (forall p :: crypto.hash(p, SaltRounds) != "" && crypto.compare(p, crypto.hash(p, SaltRounds)))
    && (forall c, s :: crypto.verify(crypto.sign(c, s, TokenLifetime), s) == Some(c))
  }

  /** A reply's token verifies to the claims `{userId, email}` of its user. */
  lemma ReplyTokenVerifies(u: StoredUser, crypto: Crypto, secret: string)
    requires u.email.Some? && SoundLibraries(crypto)
    ensures VerifyToken(Reply(u, crypto, secret).token, crypto, secret)
         == Ok(Claims(u.id, u.email.value))
    ensures Reply(u, crypto, secret).user.id == u.id
  {
  }

  /** No two rows share a username, and no two rows share an email. */
  ghost predicate UniqueAccounts(rows: seq<StoredUser>) {
    forall i, j :: 0 <= i < j < |rows| ==>
      rows[i].username != rows[j].username &&
      (rows[i].email.Some? ==> rows[i].email != rows[j].email)
  }

  /** Ids are the serial's earlier values, in insertion order. */
  ghost predicate SerialIds(rows: seq<StoredUser>, nextId: int) {
    && 1 <= nextId
    && (forall i :: 0 <= i < |rows| ==> 1 <= rows[i].id < nextId)
    && (forall i, j :: 0 <= i < j < |rows| ==> rows[i].id < rows[j].id)
  }

  /** The pre-checks keep accounts unique when a row is appended. */
  lemma AppendKeepsUnique(rows: seq<StoredUser>, u: StoredUser)
    requires UniqueAccounts(rows)
    requires Lookup(rows, ByUsername(u.username)).None?
    requires u.email.Some? && Lookup(rows, ByEmail(u.email.value)).None?
    ensures UniqueAccounts(rows + [u])
  {
  }

  /** A freshly registered user can log in with the same email and password. */
  lemma LoginAfterRegistration(rows: seq<StoredUser>, id: int, data: Registration, crypto: Crypto, secret: string)
    requires SoundLibraries(crypto)
    requires Lookup(rows, ByEmail(data.email)).None?
    ensures var u := NewUser(id, data, crypto);
      Login(rows + [u], data.email, data.password, crypto, secret) == Ok(Reply(u, crypto, secret))
  {
    var u := NewUser(id, data, crypto);
    LookupAppended(rows, u, ByEmail(data.email));
  }

  /** The user table, with its serial id counter. */
  class UserStore {
    var rows: seq<StoredUser>
    var nextId: int

    ghost predicate Valid()
      reads this
    {
      SerialIds(rows, nextId) && UniqueAccounts(rows)
    }

    constructor ()
      ensures Valid() && rows == [] && nextId == 1
    {
      rows := [];
      nextId := 1;
    }

    /** registerUser(data): email check, then username check, then insert. */
    method Register(data: Registration, crypto: Crypto, secret: string) returns (r: Result<AuthReply>)
      requires Valid()
      modifies this
      ensures Valid()
      ensures Lookup(old(rows), ByEmail(data.email)).Some? ==>
        r == Err(EmailTaken) && rows == old(rows) && nextId == old(nextId)
      ensures Lookup(old(rows), ByEmail(data.email)).None? && Lookup(old(rows), ByUsername(data.username)).Some? ==>
        r == Err(UsernameTaken) && rows == old(rows) && nextId == old(nextId)
      ensures Lookup(old(rows), ByEmail(data.email)).None? && Lookup(old(rows), ByUsername(data.username)).None? ==>
        var u := NewUser(old(nextId), data, crypto);
        && rows == old(rows) + [u]
        && nextId == old(nextId) + 1
        && r == Ok(Reply(u, crypto, secret))
    {
      var existingUser := Lookup(rows, ByEmail(data.email));
      if existingUser.Some? {
        return Err(EmailTaken);
      }
      var existingUsername := Lookup(rows, ByUsername(data.username));
      if existingUsername.Some? {
        return Err(UsernameTaken);
      }
      var hashedPassword := crypto.hash(data.password, SaltRounds);
      var user := StoredUser(nextId, data.username, Some(data.email), Some(hashedPassword),
                             data.name, Some(AvatarUrl(data.name, crypto)));
      AppendKeepsUnique(rows, user);
      rows := rows + [user];
      nextId := nextId + 1;
      r := Ok(Reply(user, crypto, secret));
    }
  }
}
