/** Login through Telegram: find the user by Telegram id or create one with
    the welcome bonus, refresh the names of a known user, then refuse a
    blocked account. Also the init-data check Telegram prescribes for Mini
    Apps (verifyTelegramAuth), which the route does not call: its data-check
    string is built here, the HMAC is the parameter `digest`. */
module TelegramRoutes {
  import opened Wrappers
  import opened Strings
  import opened Http
  import opened Store

  /** A profile field of the request body: absent (left alone by an update,
      null on a create) or given (possibly as JSON null). */
  datatype Field = Absent | Given(value: Option<string>)

  function OnCreate(f: Field): Option<string> {
    match f
    case Absent => None
    case Given(v) => v
  }

  function OnUpdate(f: Field, current: Option<string>): Option<string> {
    match f
    case Absent => current
    case Given(v) => v
  }

  /** The body; `telegramId` is the id's string form, `None` when it is
      absent or falsy. */
  datatype TelegramBody = TelegramBody(telegramId: Option<string>, firstName: Field, lastName: Field, username: Field)

  datatype TelegramAnswer = TelegramAnswer(token: string, id: Id, telegramId: Option<string>, email: Option<string>,
                                           firstName: Option<string>, lastName: Option<string>,
                                           username: Option<string>, balance: real)

  predicate MissingId(body: TelegramBody) {
    body.telegramId.None? || body.telegramId.value == ""
  }

  /** The login; `welcomeBonus` is the configured WELCOME_BONUS. */
  function TelegramTurn(st: Tables, body: TelegramBody, welcomeBonus: real, sign: Id -> string, now: int)
    : Outcome<Reply<TelegramAnswer>>
  {
    if MissingId(body) then Outcome(Fail(400, "Telegram ID обязателен"), st)
    else
      var tid := body.telegramId.value;
      match UserByTelegramId(st.users, tid)
      case None =>
        var u := NewTelegramUser(st.nextId, tid, body, welcomeBonus);
        Answer(u, Tables(st.users + [u], st.sessions, st.messages,
                         st.transactions + [WelcomeTransaction(u.id, welcomeBonus, now)], st.nextId + 1), sign)
      case Some(i) =>
        var v := Refreshed(st.users[i], body);
        Answer(v, st.(users := st.users[i := v]), sign)
  }

  function NewTelegramUser(id: Id, tid: string, body: TelegramBody, welcomeBonus: real): User {
    User(id, None, Some(tid), None, OnCreate(body.firstName), OnCreate(body.lastName), OnCreate(body.username),
         welcomeBonus, false, false, None)
  }

  function WelcomeTransaction(userId: Id, welcomeBonus: real, now: int): Transaction {
    Transaction(userId, Topup, welcomeBonus, "Приветственный бонус", now)
  }

  /** `user.update({ data: { firstName, lastName, username } })` */
  function Refreshed(u: User, body: TelegramBody): User {
    u.(firstName := OnUpdate(body.firstName, u.firstName),
       lastName := OnUpdate(body.lastName, u.lastName),
       username := OnUpdate(body.username, u.username))
  }

  /** The blocked check runs on the record after the write. */
  function Answer(u: User, after: Tables, sign: Id -> string): Outcome<Reply<TelegramAnswer>> {
    if u.isBlocked then Outcome(Fail(403, "Аккаунт заблокирован"), after)
    else Outcome(Ok(200, TelegramAnswer(sign(u.id), u.id, u.telegramId, u.email, u.firstName, u.lastName,
                                       u.username, u.balance)), after)
  }

  /** Without a Telegram id nothing is looked up or written. */
  lemma TelegramMissingId(st: Tables, body: TelegramBody, welcomeBonus: real, sign: Id -> string, now: int)
    requires MissingId(body)
    ensures TelegramTurn(st, body, welcomeBonus, sign, now) == Outcome(Fail(400, "Telegram ID обязателен"), st)
  {
  }

  /** An unseen Telegram id gets exactly one new user holding the bonus and
      exactly one top-up row of the bonus, and the login succeeds. */
  lemma TelegramCreates(st: Tables, body: TelegramBody, welcomeBonus: real, sign: Id -> string, now: int)
    requires !MissingId(body)
    requires forall k :: 0 <= k < |st.users| ==> st.users[k].telegramId != body.telegramId
    ensures var o := TelegramTurn(st, body, welcomeBonus, sign, now);
      && o.after.users == st.users + [User(st.nextId, None, body.telegramId, None, OnCreate(body.firstName),
                                          OnCreate(body.lastName), OnCreate(body.username),
                                          welcomeBonus, false, false, None)]
      && o.after.transactions == st.transactions + [Transaction(st.nextId, Topup, welcomeBonus, "Приветственный бонус", now)]
      && o.after.sessions == st.sessions && o.after.messages == st.messages && o.after.nextId == st.nextId + 1
      && o.reply.Ok? && o.reply.value.id == st.nextId && o.reply.value.balance == welcomeBonus
      && o.reply.value.token == sign(st.nextId)
  {
  }

  /** A known Telegram id changes at most the three names of its user: no
      balance, no ledger row, no new id. The reply is 403 for a blocked
      user, whose names are refreshed all the same. */
  lemma TelegramRefreshes(st: Tables, body: TelegramBody, welcomeBonus: real, sign: Id -> string, now: int, i: nat)
    requires UniqueTelegramIds(st.users) && !MissingId(body)
    requires i < |st.users| && st.users[i].telegramId == body.telegramId
    ensures var o := TelegramTurn(st, body, welcomeBonus, sign, now);
      && o.after == st.(users := st.users[i := Refreshed(st.users[i], body)])
      && o.after.users[i].balance == st.users[i].balance
      && o.after.users[i].isBlocked == st.users[i].isBlocked
      && o.after.users[i].apiKeyHash == st.users[i].apiKeyHash
      && (o.reply.Err? <==> st.users[i].isBlocked)
      && (st.users[i].isBlocked ==> o.reply == Fail(403, "Аккаунт заблокирован"))
  {
    var r := UserByTelegramId(st.users, body.telegramId.value);
    assert st.users[r.value].telegramId == st.users[i].telegramId;
  }

  lemma TelegramKeepsTablesOk(st: Tables, body: TelegramBody, welcomeBonus: real, sign: Id -> string, now: int)
    requires TablesOk(st)
    ensures TablesOk(TelegramTurn(st, body, welcomeBonus, sign, now).after)
    ensures BalancesNonNegative(st.users) && welcomeBonus >= 0.0 ==>
      BalancesNonNegative(TelegramTurn(st, body, welcomeBonus, sign, now).after.users)
  {
    if !MissingId(body) {
      match UserByTelegramId(st.users, body.telegramId.value)
      case None =>
        NewUserTablesOk(st, NewTelegramUser(st.nextId, body.telegramId.value, body, welcomeBonus),
                        WelcomeTransaction(st.nextId, welcomeBonus, now));
      case Some(i) =>
        ProfileUpdateTablesOk(st, i, Refreshed(st.users[i], body));
    }
  }

  /** With a negative WELCOME_BONUS the route creates a user whose balance
      is negative: the route itself does not check the setting. */
  lemma NegativeBonusBreaksSolvency(st: Tables, body: TelegramBody, welcomeBonus: real, sign: Id -> string, now: int)
    requires !MissingId(body) && welcomeBonus < 0.0
    requires forall k :: 0 <= k < |st.users| ==> st.users[k].telegramId != body.telegramId
    ensures !BalancesNonNegative(TelegramTurn(st, body, welcomeBonus, sign, now).after.users)
  {
    var after := TelegramTurn(st, body, welcomeBonus, sign, now).after;
    assert after.users[|st.users|].balance == welcomeBonus;
  }

  method TelegramLogin(db: Db, body: TelegramBody, welcomeBonus: real, sign: Id -> string, now: int)
    returns (r: Reply<TelegramAnswer>)
    requires db.Valid()
    modifies db
    ensures r == TelegramTurn(old(db.State()), body, welcomeBonus, sign, now).reply
    ensures db.State() == TelegramTurn(old(db.State()), body, welcomeBonus, sign, now).after
    ensures db.Valid()
    ensures old(db.Solvent()) && welcomeBonus >= 0.0 ==> db.Solvent()
  {
    TelegramKeepsTablesOk(db.State(), body, welcomeBonus, sign, now);
    if body.telegramId.None? || body.telegramId.value == "" {
      return Fail(400, "Telegram ID обязателен");
    }
    var tid := body.telegramId.value;
    var found := UserByTelegramId(db.users, tid);
    var user;
    if found.None? {
      user := db.CreateUser(None, Some(tid), None, OnCreate(body.firstName), OnCreate(body.lastName),
                            OnCreate(body.username), welcomeBonus);
      db.CreateTransaction(Transaction(user.id, Topup, welcomeBonus, "Приветственный бонус", now));
    } else {
      var i := found.value;
      user := Refreshed(db.users[i], body);
      db.UpdateUser(i, user);
    }
    if user.isBlocked {
      return Fail(403, "Аккаунт заблокирован");
    }
    var token := sign(user.id);
    r := Ok(200, TelegramAnswer(token, user.id, user.telegramId, user.email, user.firstName, user.lastName,
                                user.username, user.balance));
  }

  // ---------------------------------------------------------------------
  // verifyTelegramAuth

  /** One `key=value` pair of the decoded init data, in its order. */
  datatype Param = Param(key: string, value: string)

  const HASH_KEY: string := "hash"

  /** `urlParams.get(key)`: the first value under `key`. */
  function GetParam(ps: seq<Param>, key: string): (r: Option<string>)
    ensures r.Some? ==> exists k :: 0 <= k < |ps| && ps[k] == Param(key, r.value)
    ensures r.None? ==> forall k :: 0 <= k < |ps| ==> ps[k].key != key
    decreases |ps|
  {
    if ps == [] then None
    else if ps[0].key == key then Some(ps[0].value)
    else GetParam(ps[1..], key)
  }

  /** `urlParams.delete(key)`: every pair under `key` goes, the rest stay in order. */
  function DeleteParam(ps: seq<Param>, key: string): (r: seq<Param>)
    ensures forall k :: 0 <= k < |r| ==> r[k].key != key
    ensures forall p :: p in ps && p.key != key ==> p in r
    ensures forall p :: p in r ==> p in ps
    decreases |ps|
  {
    if ps == [] then []
    else (if ps[0].key == key then [] else [ps[0]]) + DeleteParam(ps[1..], key)
  }

  /** The key order: code-point lexicographic order, standing in for
      `localeCompare`. */
  predicate KeyLe(a: string, b: string)
    decreases |a|
  {
    a == [] || (b != [] && (a[0] < b[0] || (a[0] == b[0] && KeyLe(a[1..], b[1..]))))
  }

  lemma {:induction false} KeyLeTotal(a: string, b: string)
    ensures KeyLe(a, b) || KeyLe(b, a)
    decreases |a|
  {
    if a != [] && b != [] && a[0] == b[0] {
      KeyLeTotal(a[1..], b[1..]);
    }
  }

  predicate SortedByKey(ps: seq<Param>) {
    forall k :: 0 <= k < |ps| - 1 ==> KeyLe(ps[k].key, ps[k + 1].key)
  }

  /** Insertion before the first pair with a larger-or-equal key keeps
      `x` ahead of the pairs it preceded, which makes the sort stable. */
  function Insert(x: Param, ps: seq<Param>): (r: seq<Param>)
    ensures multiset(r) == multiset(ps) + multiset{x}
    ensures |r| == |ps| + 1
    decreases |ps|
  {
    if ps == [] || KeyLe(x.key, ps[0].key) then [x] + ps
    else
      assert ps == [ps[0]] + ps[1..];
      [ps[0]] + Insert(x, ps[1..])
  }

  lemma {:induction false} InsertSorted(x: Param, ps: seq<Param>)
    requires SortedByKey(ps)
    ensures SortedByKey(Insert(x, ps))
    ensures Insert(x, ps)[0] == x || (ps != [] && Insert(x, ps)[0] == ps[0])
    decreases |ps|
  {
    if ps == [] || KeyLe(x.key, ps[0].key) {
    } else {
      var tail := ps[1..];
      assert SortedByKey(tail) by {
        forall k | 0 <= k < |tail| - 1 ensures KeyLe(tail[k].key, tail[k + 1].key) {
          assert tail[k] == ps[k + 1] && tail[k + 1] == ps[k + 2];
        }
      }
      InsertSorted(x, tail);
      KeyLeTotal(x.key, ps[0].key);
      var r := Insert(x, ps);
      assert r == [ps[0]] + Insert(x, tail);
      forall k | 0 <= k < |r| - 1 ensures KeyLe(r[k].key, r[k + 1].key) {
        if k > 0 {
          assert r[k] == Insert(x, tail)[k - 1] && r[k + 1] == Insert(x, tail)[k];
        }
      }
    }
  }

  /** `Array.from(urlParams.entries()).sort(([a], [b]) => a.localeCompare(b))` */
  function SortByKey(ps: seq<Param>): (r: seq<Param>)
    ensures multiset(r) == multiset(ps)
    decreases |ps|
  {
    if ps == [] then []
    else
      assert ps == [ps[0]] + ps[1..];
      Insert(ps[0], SortByKey(ps[1..]))
  }

  lemma {:induction false} SortByKeySorted(ps: seq<Param>)
    ensures SortedByKey(SortByKey(ps))
    decreases |ps|
  {
    if ps != [] {
      SortByKeySorted(ps[1..]);
      InsertSorted(ps[0], SortByKey(ps[1..]));
    }
  }

  function Rendered(ps: seq<Param>): (r: seq<string>)
    ensures |r| == |ps|
    ensures forall k :: 0 <= k < |ps| ==> r[k] == ps[k].key + "=" + ps[k].value
  {
    seq(|ps|, k requires 0 <= k < |ps| => ps[k].key + "=" + ps[k].value)
  }

  /** The data-check string: every pair but `hash`, sorted by key, as
      `key=value` lines joined by "\n". */
  function DataCheckString(ps: seq<Param>): string {
    Join(Rendered(SortByKey(DeleteParam(ps, HASH_KEY))), "\n")
  }

  /** The pairs the data-check string is made of are exactly the pairs
      other than `hash`, each as often as it occurs, in key order. */
  lemma DataCheckPairs(ps: seq<Param>)
    ensures var sorted := SortByKey(DeleteParam(ps, HASH_KEY));
      && SortedByKey(sorted)
      && multiset(sorted) == multiset(DeleteParam(ps, HASH_KEY))
      && (forall k :: 0 <= k < |sorted| ==> sorted[k].key != HASH_KEY)
      && (forall p :: p in ps && p.key != HASH_KEY ==> p in sorted)
  {
    var d := DeleteParam(ps, HASH_KEY);
    SortByKeySorted(d);
    var sorted := SortByKey(d);
    forall k | 0 <= k < |sorted| ensures sorted[k].key != HASH_KEY {
      assert sorted[k] in multiset(d);
    }
    forall p | p in ps && p.key != HASH_KEY ensures p in sorted {
      assert p in multiset(d);
    }
  }

  /** The check: false without a bot token, otherwise the hex digest of the
      data-check string (HMAC-SHA-256 under the key derived from the token,
      as `digest(botToken, data)`) must equal the `hash` pair. */
  function VerifyTelegramAuth(ps: seq<Param>, botToken: string, digest: (string, string) -> string): (ok: bool)
    ensures botToken == "" ==> !ok
    ensures ok <==> (&& botToken != ""
                     && GetParam(ps, HASH_KEY).Some?
                     && digest(botToken, DataCheckString(ps)) == GetParam(ps, HASH_KEY).value)
  {
    if botToken == "" then false
    else
      match GetParam(ps, HASH_KEY)
      case None => false
      case Some(h) => digest(botToken, DataCheckString(ps)) == h
  }

  /** The `hash` pair's value never enters the string it signs, wherever
      the pair stands among the others: changing it changes nothing but
      the expected digest. */
  lemma DataCheckIgnoresHash(ps: seq<Param>, i: nat, h1: string, h2: string)
    requires i <= |ps|
    ensures DataCheckString(ps[..i] + [Param(HASH_KEY, h1)] + ps[i..])
         == DataCheckString(ps[..i] + [Param(HASH_KEY, h2)] + ps[i..])
  {
    DeleteInsertHash(ps, i, h1);
    DeleteInsertHash(ps, i, h2);
  }

  /** Deleting `hash` undoes inserting a `hash` pair at any position. */
  lemma {:induction false} DeleteInsertHash(ps: seq<Param>, i: nat, h: string)
    requires i <= |ps|
    ensures DeleteParam(ps[..i] + [Param(HASH_KEY, h)] + ps[i..], HASH_KEY) == DeleteParam(ps, HASH_KEY)
    decreases i
  {
    var with := ps[..i] + [Param(HASH_KEY, h)] + ps[i..];
    if i == 0 {
      assert with[1..] == ps;
    } else {
      var tail := ps[1..];
      assert with[0] == ps[0];
      assert with[1..] == tail[..i - 1] + [Param(HASH_KEY, h)] + tail[i - 1..];
      DeleteInsertHash(tail, i - 1, h);
    }
  }

  lemma {:induction false} DeleteAppendHash(ps: seq<Param>, h: string)
    ensures DeleteParam(ps + [Param(HASH_KEY, h)], HASH_KEY) == DeleteParam(ps, HASH_KEY)
    decreases |ps|
  {
    if ps == [] {
      assert ps + [Param(HASH_KEY, h)] == [Param(HASH_KEY, h)];
    } else {
      assert (ps + [Param(HASH_KEY, h)])[1..] == ps[1..] + [Param(HASH_KEY, h)];
      DeleteAppendHash(ps[1..], h);
    }
  }
}
