/** The account routes of the web interface: registration with the signup
    bonus, e-mail login, issuing a new API key and the profile summary.
    Foreign calls are parameters: `isEmail` is zod's e-mail check,
    `passwordHash` the bcrypt hash computed for the new password, `compare`
    bcrypt's check of a password against a hash, `sign` the JWT issued for
    an id, `uuid` the random UUID behind a new key and `hash` the bcrypt
    hash of that key. */
module AuthRoutes {
  import opened Wrappers
  import opened Strings
  import opened Http
  import opened Store
  import opened ApiKey
  import opened AuthMiddleware

  const MIN_PASSWORD: nat := 6
  const SIGNUP_BONUS: real := 1.0

  /** The register and login bodies. */
  datatype Credentials = Credentials(email: string, password: string)

  /** The token and the user summary both register and login answer with. */
  datatype AuthAnswer = AuthAnswer(token: string, id: Id, email: Option<string>, balance: real)

  // ---------------------------------------------------------------------
  // POST /register

  /** The registration, with the store it leaves. Validation reports the
      first failing field in schema order, email before password. */
  function RegisterTurn(st: Tables, body: Credentials, isEmail: string -> bool, passwordHash: string,
                        sign: Id -> string, now: int): Outcome<Reply<AuthAnswer>>
  {
    if !isEmail(body.email) then Outcome(Fail(400, "Неверный формат email"), st)
    else if |body.password| < MIN_PASSWORD then Outcome(Fail(400, "Пароль должен быть не менее 6 символов"), st)
    else if UserByEmail(st.users, body.email).Some? then
      Outcome(Fail(400, "Пользователь с таким email уже существует"), st)
    else
      var u := NewAccount(st.nextId, body.email, passwordHash);
      Outcome(Ok(201, AuthAnswer(sign(u.id), u.id, u.email, u.balance)),
              Tables(st.users + [u], st.sessions, st.messages,
                     st.transactions + [SignupBonus(u.id, now)], st.nextId + 1))
  }

  function NewAccount(id: Id, email: string, passwordHash: string): User {
    User(id, Some(email), None, Some(passwordHash), None, None, None, SIGNUP_BONUS, false, false, None)
  }

  function SignupBonus(userId: Id, now: int): Transaction {
    Transaction(userId, Topup, SIGNUP_BONUS, "Бонус при регистрации", now)
  }

  /** Every rejection leaves the store untouched, and each is decided by
      its own condition in order: e-mail form, password length, taken
      e-mail. */
  lemma RegisterRejections(st: Tables, body: Credentials, isEmail: string -> bool, passwordHash: string,
                           sign: Id -> string, now: int)
    ensures var o := RegisterTurn(st, body, isEmail, passwordHash, sign, now);
      o.reply.Err? ==> o.after == st && o.reply.status == 400
    ensures var o := RegisterTurn(st, body, isEmail, passwordHash, sign, now);
      && (!isEmail(body.email) ==> o.reply == Fail(400, "Неверный формат email"))
      && (isEmail(body.email) && |body.password| < 6 ==> o.reply == Fail(400, "Пароль должен быть не менее 6 символов"))
      && ((isEmail(body.email) && |body.password| >= 6
           && exists k :: 0 <= k < |st.users| && st.users[k].email == Some(body.email))
          ==> o.reply == Fail(400, "Пользователь с таким email уже существует"))
    ensures var o := RegisterTurn(st, body, isEmail, passwordHash, sign, now);
      o.reply.Ok? <==> (&& isEmail(body.email) && |body.password| >= 6
                        && forall k :: 0 <= k < |st.users| ==> st.users[k].email != Some(body.email))
  {
  }

  /** A registration appends exactly one user, with the e-mail, the hash,
      a balance of one dollar, no Telegram link, no key, neither blocked nor
      an admin, and exactly one ledger row crediting that dollar; the reply
      carries the token of the new id. */
  lemma RegisterCreates(st: Tables, body: Credentials, isEmail: string -> bool, passwordHash: string,
                        sign: Id -> string, now: int)
    requires RegisterTurn(st, body, isEmail, passwordHash, sign, now).reply.Ok?
    ensures var o := RegisterTurn(st, body, isEmail, passwordHash, sign, now);
      && o.after.users == st.users + [User(st.nextId, Some(body.email), None, Some(passwordHash), None, None, None,
                                          1.0, false, false, None)]
      && o.after.transactions == st.transactions + [Transaction(st.nextId, Topup, 1.0, "Бонус при регистрации", now)]
      && o.after.sessions == st.sessions && o.after.messages == st.messages
      && o.reply == Ok(201, AuthAnswer(sign(st.nextId), st.nextId, Some(body.email), 1.0))
  {
  }

  lemma RegisterKeepsTablesOk(st: Tables, body: Credentials, isEmail: string -> bool, passwordHash: string,
                              sign: Id -> string, now: int)
    requires TablesOk(st)
    ensures TablesOk(RegisterTurn(st, body, isEmail, passwordHash, sign, now).after)
    ensures BalancesNonNegative(st.users) ==>
      BalancesNonNegative(RegisterTurn(st, body, isEmail, passwordHash, sign, now).after.users)
  {
    if RegisterTurn(st, body, isEmail, passwordHash, sign, now).reply.Ok? {
      NewUserTablesOk(st, NewAccount(st.nextId, body.email, passwordHash), SignupBonus(st.nextId, now));
    }
  }

  method Register(db: Db, body: Credentials, isEmail: string -> bool, passwordHash: string,
                  sign: Id -> string, now: int)
    returns (r: Reply<AuthAnswer>)
    requires db.Valid()
    modifies db
    ensures r == RegisterTurn(old(db.State()), body, isEmail, passwordHash, sign, now).reply
    ensures db.State() == RegisterTurn(old(db.State()), body, isEmail, passwordHash, sign, now).after
    ensures db.Valid()
    ensures old(db.Solvent()) ==> db.Solvent()
  {
    RegisterKeepsTablesOk(db.State(), body, isEmail, passwordHash, sign, now);
    if !isEmail(body.email) {
      return Fail(400, "Неверный формат email");
    }
    if |body.password| < MIN_PASSWORD {
      return Fail(400, "Пароль должен быть не менее 6 символов");
    }
    var existing := UserByEmail(db.users, body.email);
    if existing.Some? {
      return Fail(400, "Пользователь с таким email уже существует");
    }
    var user := db.CreateUser(Some(body.email), None, Some(passwordHash), None, None, None, SIGNUP_BONUS);
    db.CreateTransaction(Transaction(user.id, Topup, SIGNUP_BONUS, "Бонус при регистрации", now));
    var token := sign(user.id);
    r := Ok(201, AuthAnswer(token, user.id, user.email, user.balance));
  }

  // ---------------------------------------------------------------------
  // POST /login

  /** The login decision chain: zod's default e-mail message, then one
      message for an unknown e-mail and a wrong password alike, a thrown
      bcrypt call (500) for a user without a password hash, and the
      blocked flag only after the password. */
  function Login(users: seq<User>, body: Credentials, isEmail: string -> bool,
                 compare: (string, string) -> bool, sign: Id -> string): (r: Reply<AuthAnswer>)
    ensures !isEmail(body.email) ==> r == Fail(400, "Invalid email")
    ensures (isEmail(body.email) && forall k :: 0 <= k < |users| ==> users[k].email != Some(body.email))
            ==> r == Fail(401, "Неверный email или пароль")
    ensures forall k :: 0 <= k < |users| && FirstWithEmail(users, body.email, k) && isEmail(body.email) ==>
              && (users[k].passwordHash.None? ==> r == Fail(500, "Ошибка входа"))
              && ((users[k].passwordHash.Some? && !compare(body.password, users[k].passwordHash.value))
                  ==> r == Fail(401, "Неверный email или пароль"))
              && ((users[k].passwordHash.Some? && compare(body.password, users[k].passwordHash.value))
                  ==> r == (if users[k].isBlocked then Fail(403, "Аккаунт заблокирован")
                            else Ok(200, AuthAnswer(sign(users[k].id), users[k].id, users[k].email, users[k].balance))))
    ensures r.Ok? ==> exists k :: 0 <= k < |users| && users[k].email == Some(body.email) && !users[k].isBlocked
                                 && users[k].passwordHash.Some? && compare(body.password, users[k].passwordHash.value)
                                 && r.value == AuthAnswer(sign(users[k].id), users[k].id, users[k].email, users[k].balance)
  {
    if !isEmail(body.email) then Fail(400, "Invalid email")
    else match UserByEmail(users, body.email)
      case None => Fail(401, "Неверный email или пароль")
      case Some(k) =>
        var u := users[k];
        if u.passwordHash.None? then Fail(500, "Ошибка входа")
        else if !compare(body.password, u.passwordHash.value) then Fail(401, "Неверный email или пароль")
        else if u.isBlocked then Fail(403, "Аккаунт заблокирован")
        else Ok(200, AuthAnswer(sign(u.id), u.id, u.email, u.balance))
  }

  /** `k` is the first row holding `email`, the one the lookup returns. */
  predicate FirstWithEmail(users: seq<User>, email: string, k: nat) {
    k < |users| && users[k].email == Some(email) && forall j :: 0 <= j < k ==> users[j].email != Some(email)
  }

  /** With unique e-mails the holder of an e-mail is the first holder. */
  lemma FirstWithEmailOfUnique(users: seq<User>, email: string, k: nat)
    requires UniqueEmails(users) && k < |users| && users[k].email == Some(email)
    ensures FirstWithEmail(users, email, k)
  {
  }

  /** Registering and then logging in with the same password succeeds,
      given that bcrypt accepts a password against its own hash. */
  lemma RegisterThenLogin(st: Tables, body: Credentials, isEmail: string -> bool, passwordHash: string,
                          compare: (string, string) -> bool, sign: Id -> string, now: int)
    requires RegisterTurn(st, body, isEmail, passwordHash, sign, now).reply.Ok?
    requires compare(body.password, passwordHash)
    ensures Login(RegisterTurn(st, body, isEmail, passwordHash, sign, now).after.users, body, isEmail, compare, sign)
         == Ok(200, AuthAnswer(sign(st.nextId), st.nextId, Some(body.email), 1.0))
  {
    var us := RegisterTurn(st, body, isEmail, passwordHash, sign, now).after.users;
    assert us == st.users + [NewAccount(st.nextId, body.email, passwordHash)];
    assert FirstWithEmail(us, body.email, |st.users|);
  }

  // ---------------------------------------------------------------------
  // POST /api-key

  /** Issuing a key: a fresh key from `uuid`, its hash written over the
      caller's stored key hash (so any earlier key stops working); 500 when
      the caller's row is gone. */
  function KeyTurn(st: Tables, caller: Option<User>, uuid: string, hash: string -> string): Outcome<Reply<string>>
  {
    if caller.None? then Outcome(Fail(401, "Не авторизован"), st)
    else
      var apiKey := GenerateApiKey(uuid);
      match UserById(st.users, caller.value.id)
      case None => Outcome(Fail(500, "Ошибка генерации API ключа"), st)
      case Some(i) =>
        Outcome(Ok(200, apiKey), st.(users := st.users[i := st.users[i].(apiKeyHash := Some(hash(apiKey)))]))
  }

  /** A key is issued exactly when the caller is stored; it has the key
      prefix, so it passes the format check; only the caller's key hash
      changes, and after it a key matches the caller exactly when it
      verifies against the new hash. */
  lemma KeyTurnReplaces(st: Tables, caller: Option<User>, uuid: string, hash: string -> string,
                        compare: (string, string) -> bool)
    requires UniqueUserIds(st.users)
    ensures var o := KeyTurn(st, caller, uuid, hash);
      o.reply.Ok? <==> caller.Some? && exists k :: 0 <= k < |st.users| && st.users[k].id == caller.value.id
    ensures var o := KeyTurn(st, caller, uuid, hash);
      o.reply.Err? ==> o.after == st
    ensures var o := KeyTurn(st, caller, uuid, hash);
      o.reply.Ok? ==>
        && o.reply.value == GenerateApiKey(uuid)
        && StartsWith(o.reply.value, KEY_PREFIX)
        && |o.after.users| == |st.users|
        && o.after.sessions == st.sessions && o.after.messages == st.messages
        && o.after.transactions == st.transactions && o.after.nextId == st.nextId
        && forall k :: 0 <= k < |st.users| ==>
             if st.users[k].id == caller.value.id then
               && o.after.users[k] == st.users[k].(apiKeyHash := Some(hash(o.reply.value)))
               && forall key :: KeyMatches(o.after.users[k], key, compare)
                                  == (hash(o.reply.value) != "" && compare(key, hash(o.reply.value)))
             else o.after.users[k] == st.users[k]
  {
    if caller.Some? {
      var r := UserById(st.users, caller.value.id);
      if r.Some? {
        forall k | 0 <= k < |st.users| && st.users[k].id == caller.value.id ensures k == r.value {
          assert st.users[k].id == st.users[r.value].id;
        }
      }
    }
  }

  lemma KeyTurnKeepsTablesOk(st: Tables, caller: Option<User>, uuid: string, hash: string -> string)
    requires TablesOk(st)
    ensures TablesOk(KeyTurn(st, caller, uuid, hash).after)
    ensures BalancesNonNegative(st.users) ==> BalancesNonNegative(KeyTurn(st, caller, uuid, hash).after.users)
  {
    if caller.Some? {
      match UserById(st.users, caller.value.id)
      case None =>
      case Some(i) =>
        ProfileUpdateTablesOk(st, i, st.users[i].(apiKeyHash := Some(hash(GenerateApiKey(uuid)))));
    }
  }

  method RegenerateApiKey(db: Db, caller: Option<User>, uuid: string, hash: string -> string)
    returns (r: Reply<string>)
    requires db.Valid()
    modifies db
    ensures r == KeyTurn(old(db.State()), caller, uuid, hash).reply
    ensures db.State() == KeyTurn(old(db.State()), caller, uuid, hash).after
    ensures db.Valid()
    ensures old(db.Solvent()) ==> db.Solvent()
  {
    KeyTurnKeepsTablesOk(db.State(), caller, uuid, hash);
    if caller.None? {
      return Fail(401, "Не авторизован");
    }
    var apiKey := GenerateApiKey(uuid);
    var apiKeyHash := hash(apiKey);
    var found := UserById(db.users, caller.value.id);
    if found.None? {
      return Fail(500, "Ошибка генерации API ключа");
    }
    var i := found.value;
    db.UpdateUser(i, db.users[i].(apiKeyHash := Some(apiKeyHash)));
    r := Ok(200, apiKey);
  }

  // ---------------------------------------------------------------------
  // GET /me

  datatype Profile = Profile(id: Id, email: Option<string>, balance: real, hasApiKey: bool)

  /** The caller's summary; `hasApiKey` is the truthiness of the stored
      hash, so an absent or empty hash counts as no key. */
  function Me(caller: Option<User>): (r: Reply<Profile>)
    ensures caller.None? <==> r == Fail(401, "Не авторизован")
    ensures caller.Some? ==> (&& r.Ok? && r.status == 200 && r.value.id == caller.value.id
                              && r.value.email == caller.value.email && r.value.balance == caller.value.balance)
    ensures caller.Some? ==> (r.value.hasApiKey <==> caller.value.apiKeyHash.Some? && caller.value.apiKeyHash.value != "")
  {
    if caller.None? then Fail(401, "Не авторизован")
    else
      var u := caller.value;
      Ok(200, Profile(u.id, u.email, u.balance, u.apiKeyHash.Some? && u.apiKeyHash.value != ""))
  }

  /** A profile without a key is one no API key can authenticate as, and a
      profile with a key has a stored hash for keys to verify against. */
  lemma MeHasKeyMeansUsable(u: User, compare: (string, string) -> bool)
    ensures !Me(Some(u)).value.hasApiKey ==> forall key :: !KeyMatches(u, key, compare)
    ensures Me(Some(u)).value.hasApiKey ==> u.apiKeyHash.Some? && u.apiKeyHash.value != ""
  {
  }

  /** After a key is issued with a non-empty hash, the profile reports a key. */
  lemma KeyTurnThenMe(st: Tables, u: User, uuid: string, hash: string -> string, i: nat)
    requires UniqueUserIds(st.users) && i < |st.users| && st.users[i].id == u.id
    requires hash(GenerateApiKey(uuid)) != ""
    ensures Me(Some(KeyTurn(st, Some(u), uuid, hash).after.users[i])).value.hasApiKey
  {
    var r := UserById(st.users, u.id);
    assert st.users[r.value].id == st.users[i].id;
  }
}
