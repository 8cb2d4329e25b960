/**
 * Registration and login over the user store. Password hashing (bcrypt
 * with a fresh salt), the hash comparison and token signing (a JSON Web
 * Token over the user id with a seven-day lifetime) are parameters: their
 * internals are outside the model.
 */
module AuthRoutes {
  import opened Values
  import opened UserSchema
  import opened Validation

  const Ok := 200
  const Created := 201
  const BadRequest := 400
  const ServerError := 500

  /** `expiresIn: '7d'`, in seconds. */
  const TokenLifetime := 7 * 24 * 60 * 60

  const UserExists := "User already exists with this email"
  const InvalidCredentials := "Invalid email or password"
  const Registered := "User registered successfully"
  const LoggedIn := "Login successful"
  const RegisterError := "Server error during registration"

  /** The payload and options handed to the token signer. */
  datatype Claims = Claims(userId: UserId, expiresIn: nat)

  /** The user object of a reply: id, email and name, never the password. */
  datatype UserView = UserView(id: UserId, email: string, name: string)

  datatype AuthReply =
    | AuthFailed(status: int, message: string)
    | Authorized(status: int, message: string, token: string, user: UserView)

  datatype RegisterOutcome = RegisterOutcome(users: seq<User>, nextId: UserId, reply: AuthReply)

  function View(u: User): UserView
  {
    UserView(u.id, u.email, u.name)
  }

  /** The first user whose stored email is `key`. */
  function IndexOfEmail(users: seq<User>, key: string): (r: Option<nat>)
    ensures r.Some? ==> r.value < |users| && users[r.value].email == key
    ensures r.Some? ==> forall k :: 0 <= k < r.value ==> users[k].email != key
    ensures r.None? ==> forall k :: 0 <= k < |users| ==> users[k].email != key
  {
    if users == [] then None
    else if users[0].email == key then Some(0)
    else match IndexOfEmail(users[1..], key)
      case None => None
      case Some(i) => Some(i + 1)
  }

  /**
   * `User.findOne({ email })`. The store runs the query value through the
   * path's `lowercase` and `trim` setters, so the stored form is compared.
   */
  function FindByEmail(users: seq<User>, email: string): (r: Option<nat>)
    ensures r.Some? ==> r.value < |users| && users[r.value].email == NormalizeEmail(email)
    ensures r.Some? ==> forall k :: 0 <= k < r.value ==> users[k].email != NormalizeEmail(email)
    ensures r.None? ==> forall k :: 0 <= k < |users| ==> users[k].email != NormalizeEmail(email)
  {
    IndexOfEmail(users, NormalizeEmail(email))
  }

  /** POST /api/auth/register: validation, the duplicate check, hashing, saving, signing. */
  function RegisterResult(users: seq<User>, nextId: UserId, email: string, password: string, name: string,
                          hash: string -> string, sign: Claims -> string): (r: RegisterOutcome)
    ensures ValidateRegister(email, password, name).Some? ==>
      r == RegisterOutcome(users, nextId, AuthFailed(BadRequest, ValidateRegister(email, password, name).value))
    ensures ValidateRegister(email, password, name).None? && FindByEmail(users, email).Some? ==>
      r == RegisterOutcome(users, nextId, AuthFailed(BadRequest, UserExists))
    ensures ValidateRegister(email, password, name).None? && FindByEmail(users, email).None?
            && NewUser(nextId, email, hash(password), name).Failure? ==>
      r == RegisterOutcome(users, nextId, AuthFailed(ServerError, RegisterError))
    ensures r.reply.Authorized? <==>
      && ValidateRegister(email, password, name).None?
      && FindByEmail(users, email).None?
      && NewUser(nextId, email, hash(password), name).Success?
    ensures r.reply.AuthFailed? ==> r.users == users && r.nextId == nextId
    ensures r.reply.Authorized? ==>
      && r.reply.status == Created && r.nextId == nextId + 1
      && |r.users| == |users| + 1 && r.users[..|users|] == users
      && r.reply.user.id == nextId && r.users[|users|].id == nextId
  {
    match ValidateRegister(email, password, name)
    case Some(m) => RegisterOutcome(users, nextId, AuthFailed(BadRequest, m))
    case None =>
      if FindByEmail(users, email).Some? then RegisterOutcome(users, nextId, AuthFailed(BadRequest, UserExists))
      else match NewUser(nextId, email, hash(password), name)
        case Failure(_) => RegisterOutcome(users, nextId, AuthFailed(ServerError, RegisterError))
        case Success(u) =>
          RegisterOutcome(users + [u], nextId + 1,
                          Authorized(Created, Registered, sign(Claims(u.id, TokenLifetime)), View(u)))
  }

  /**
   * POST /api/auth/login: a read-only lookup and comparison. An unknown
   * email and a wrong password get the same reply.
   */
  function Login(users: seq<User>, email: string, password: string,
                 compare: (string, string) -> bool, sign: Claims -> string): (r: AuthReply)
    ensures ValidateLogin(email, password).Some? ==> r == AuthFailed(BadRequest, ValidateLogin(email, password).value)
    ensures ValidateLogin(email, password).None? && (forall k :: 0 <= k < |users| ==> users[k].email != NormalizeEmail(email))
            ==> r == AuthFailed(BadRequest, InvalidCredentials)
    ensures r.Authorized? <==>
      && ValidateLogin(email, password).None?
      && FindByEmail(users, email).Some?
      && compare(password, users[FindByEmail(users, email).value].password)
    ensures !r.Authorized? && ValidateLogin(email, password).None? ==> r == AuthFailed(BadRequest, InvalidCredentials)
    ensures r.Authorized? ==>
      var u := users[FindByEmail(users, email).value];
      r == Authorized(Ok, LoggedIn, sign(Claims(u.id, TokenLifetime)), UserView(u.id, u.email, u.name))
  {
    match ValidateLogin(email, password)
    case Some(m) => AuthFailed(BadRequest, m)
    case None =>
      match FindByEmail(users, email)
      case None => AuthFailed(BadRequest, InvalidCredentials)
      case Some(i) =>
        if !compare(password, users[i].password) then AuthFailed(BadRequest, InvalidCredentials)
        else Authorized(Ok, LoggedIn, sign(Claims(users[i].id, TokenLifetime)), View(users[i]))
  }

  class UserStore {
    var users: seq<User>
    var nextId: UserId

    ghost predicate Valid()
      reads this
    {
      UserStoreInvariant(users, nextId)
    }

    constructor ()
      ensures Valid() && users == []
    {
      users := [];
      nextId := 0;
    }

    /** Registration, carried out on the store; `hash` stands for bcrypt with this call's salt. */
    method Register(email: string, password: string, name: string, hash: string -> string, sign: Claims -> string)
      returns (reply: AuthReply)
      requires Valid()
      modifies this
      ensures Valid()
      ensures RegisterOutcome(users, nextId, reply) == RegisterResult(old(users), old(nextId), email, password, name, hash, sign)
    {
      var invalid := ValidateRegister(email, password, name);
      if invalid.Some? {
        reply := AuthFailed(BadRequest, invalid.value);
        return;
      }
      var existing := FindByEmail(users, email);
      if existing.Some? {
        reply := AuthFailed(BadRequest, UserExists);
        return;
      }
      var digest := hash(password);
      var created := NewUser(nextId, email, digest, name);
      if created.Failure? {
        reply := AuthFailed(ServerError, RegisterError);
        return;
      }
      var token := sign(Claims(created.value.id, TokenLifetime));
      reply := Authorized(Created, Registered, token, View(created.value));
      RegisterStoresDigest(users, nextId, email, password, name, hash, sign);
      RegisterPreservesInvariant(users, nextId, email, password, name, hash, sign);
      users := users + [created.value];
      nextId := nextId + 1;
    }
  }

  // ---------------------------------------------------------------------
  // Properties

  /** Registration keeps emails unique and every stored user well formed. */
  lemma RegisterPreservesInvariant(users: seq<User>, nextId: UserId, email: string, password: string, name: string,
                                   hash: string -> string, sign: Claims -> string)
    requires UserStoreInvariant(users, nextId)
    ensures var r := RegisterResult(users, nextId, email, password, name, hash, sign);
      UserStoreInvariant(r.users, r.nextId)
  {
    if ValidateRegister(email, password, name).None? && FindByEmail(users, email).None? {
      var created := NewUser(nextId, email, hash(password), name);
      if created.Success? {
        AppendUserPreservesInvariant(users, nextId, created.value);
      }
    }
  }

  /** An email already in the store (in its stored form) is refused and no user is added. */
  lemma RegisterRejectsTakenEmail(users: seq<User>, nextId: UserId, email: string, password: string, name: string,
                                  hash: string -> string, sign: Claims -> string, k: nat)
    requires ValidateRegister(email, password, name).None?
    requires k < |users| && users[k].email == NormalizeEmail(email)
    ensures RegisterResult(users, nextId, email, password, name, hash, sign)
         == RegisterOutcome(users, nextId, AuthFailed(BadRequest, UserExists))
  {
  }

  /**
   * A successful registration adds exactly one user, holding the digest of
   * the password and the stored forms of email and name, and answers 201
   * with a seven-day token bound to the new id.
   */
  lemma RegisterStoresDigest(users: seq<User>, nextId: UserId, email: string, password: string, name: string,
                             hash: string -> string, sign: Claims -> string)
    requires RegisterResult(users, nextId, email, password, name, hash, sign).reply.Authorized?
    ensures var r := RegisterResult(users, nextId, email, password, name, hash, sign);
      && r.users == users + [User(nextId, NormalizeEmail(email), hash(password), Trim(name))]
      && r.nextId == nextId + 1
      && r.reply == Authorized(Created, Registered, sign(Claims(nextId, TokenLifetime)),
                               UserView(nextId, NormalizeEmail(email), Trim(name)))
  {
  }

  /** Registering the same email twice: the second attempt is refused as a duplicate. */
  lemma RegisterTwiceConflicts(users: seq<User>, nextId: UserId, email: string, password: string, name: string,
                               password2: string, name2: string, hash: string -> string, sign: Claims -> string)
    requires RegisterResult(users, nextId, email, password, name, hash, sign).reply.Authorized?
    requires ValidateRegister(email, password2, name2).None?
    ensures var r1 := RegisterResult(users, nextId, email, password, name, hash, sign);
      RegisterResult(r1.users, r1.nextId, email, password2, name2, hash, sign)
        == RegisterOutcome(r1.users, r1.nextId, AuthFailed(BadRequest, UserExists))
  {
    var r1 := RegisterResult(users, nextId, email, password, name, hash, sign);
    RegisterStoresDigest(users, nextId, email, password, name, hash, sign);
    RegisterRejectsTakenEmail(r1.users, r1.nextId, email, password2, name2, hash, sign, |users|);
  }

  /**
   * Login never tells an unknown email from a wrong password: a store that
   * does not know the email and one that knows it under another password
   * give the same reply.
   */
  lemma LoginHidesWhichCheckFailed(unknown: seq<User>, known: seq<User>, email: string, password: string,
                                   compare: (string, string) -> bool, sign: Claims -> string)
    requires forall k :: 0 <= k < |unknown| ==> unknown[k].email != NormalizeEmail(email)
    requires FindByEmail(known, email).Some? && !compare(password, known[FindByEmail(known, email).value].password)
    ensures Login(unknown, email, password, compare, sign) == Login(known, email, password, compare, sign)
  {
  }

  /** A user saved after every user that does not hold the email is the one the lookup finds. */
  lemma FindByEmailAppended(users: seq<User>, u: User, email: string)
    requires forall k :: 0 <= k < |users| ==> users[k].email != NormalizeEmail(email)
    requires u.email == NormalizeEmail(email)
    ensures FindByEmail(users + [u], email) == Some(|users|)
  {
    var us := users + [u];
    assert us[|users|] == u;
    assert forall k :: 0 <= k < |users| ==> us[k] == users[k];
  }

  /**
   * With a comparison that accepts a password against its own digest,
   * logging in right after registering succeeds, for the new user, with a
   * seven-day token for the new id.
   */
  lemma RegisterThenLogin(users: seq<User>, nextId: UserId, email: string, password: string, name: string,
                          hash: string -> string, compare: (string, string) -> bool, sign: Claims -> string)
    requires compare(password, hash(password))
    requires RegisterResult(users, nextId, email, password, name, hash, sign).reply.Authorized?
    ensures var r := RegisterResult(users, nextId, email, password, name, hash, sign);
      Login(r.users, email, password, compare, sign)
        == Authorized(Ok, LoggedIn, sign(Claims(nextId, TokenLifetime)), r.reply.user)
  {
    var r := RegisterResult(users, nextId, email, password, name, hash, sign);
    RegisterStoresDigest(users, nextId, email, password, name, hash, sign);
    var u := User(nextId, NormalizeEmail(email), hash(password), Trim(name));
    FindByEmailAppended(users, u, email);
    assert ValidateLogin(email, password).None?;
  }
}
