/** The administrator routes: the admin guard, crediting a user (by id or
    by e-mail) with the balance change and its ledger row written together,
    blocking and unblocking, and the dashboard figures. Every route runs
    after the bearer-token check, whose user is `caller`. */
module AdminRoutes {
  import opened Wrappers
  import opened Strings
  import opened Http
  import opened Store
  import opened AuthMiddleware

  /** adminMiddleware: only an administrator gets through. */
  function AdminGuard(caller: Option<User>): (r: Reply<User>)
    ensures r.Ok? <==> caller.Some? && caller.value.isAdmin
    ensures r.Ok? ==> r.value == caller.value
    ensures r.Err? ==> r == Fail(403, "Доступ запрещён")
  {
    if caller.None? || !caller.value.isAdmin then Fail(403, "Доступ запрещён") else Ok(200, caller.value)
  }

  datatype TopupAnswer = TopupAnswer(success: bool, newBalance: real)

  const ADMIN_TOPUP: string := "Пополнение администратором"

  /** The credit once the user row is looked up: 404 without one, else the
      new balance and the top-up row in one `$transaction`. */
  function Credit(st: Tables, found: Option<nat>, amount: real, now: int): Outcome<Reply<TopupAnswer>>
    requires found.Some? ==> found.value < |st.users|
  {
    match found
    case None => Outcome(Fail(404, "Пользователь не найден"), st)
    case Some(i) =>
      var newBalance := st.users[i].balance + amount;
      Outcome(Ok(200, TopupAnswer(true, newBalance)),
              st.(users := st.users[i := st.users[i].(balance := newBalance)],
                  transactions := st.transactions + [Transaction(st.users[i].id, Topup, amount, ADMIN_TOPUP, now)]))
  }

  /** `!amount || amount <= 0`: a missing, zero or negative amount. */
  predicate BadAmount(amount: Option<real>) {
    amount.None? || amount.value <= 0.0
  }

  /** POST /topup; `userId` is `None` when absent or falsy. */
  function TopupTurn(st: Tables, caller: Option<User>, userId: Option<Id>, amount: Option<real>, now: int)
    : Outcome<Reply<TopupAnswer>>
  {
    if AdminGuard(caller).Err? then Outcome(Fail(403, "Доступ запрещён"), st)
    else if userId.None? || BadAmount(amount) then Outcome(Fail(400, "Неверные параметры"), st)
    else Credit(st, UserById(st.users, userId.value), amount.value, now)
  }

  /** POST /topup-by-email; `email` is `None` when absent. */
  function TopupByEmailTurn(st: Tables, caller: Option<User>, email: Option<string>, amount: Option<real>, now: int)
    : Outcome<Reply<TopupAnswer>>
  {
    if AdminGuard(caller).Err? then Outcome(Fail(403, "Доступ запрещён"), st)
    else if email.None? || email.value == "" || BadAmount(amount) then Outcome(Fail(400, "Неверные параметры"), st)
    else Credit(st, UserByEmail(st.users, email.value), amount.value, now)
  }

  /** The checks in order (administrator, parameters, user), each rejection
      leaving the store as it was; success exactly when all three pass. */
  lemma TopupRejections(st: Tables, caller: Option<User>, userId: Option<Id>, amount: Option<real>, now: int)
    ensures var o := TopupTurn(st, caller, userId, amount, now);
      && (o.reply.Err? ==> o.after == st)
      && (!(caller.Some? && caller.value.isAdmin) ==> o.reply == Fail(403, "Доступ запрещён"))
      && ((caller.Some? && caller.value.isAdmin && (userId.None? || BadAmount(amount)))
          ==> o.reply == Fail(400, "Неверные параметры"))
      && (o.reply.Ok? <==> (&& caller.Some? && caller.value.isAdmin && userId.Some? && !BadAmount(amount)
                            && exists k :: 0 <= k < |st.users| && st.users[k].id == userId.value))
      && ((&& caller.Some? && caller.value.isAdmin && userId.Some? && !BadAmount(amount)
           && forall k :: 0 <= k < |st.users| ==> st.users[k].id != userId.value)
          ==> o.reply == Fail(404, "Пользователь не найден"))
  {
  }

  /** The same order for the e-mail form: 403, then 400 for a missing or
      empty e-mail or a bad amount, then 404 when no user holds the e-mail. */
  lemma TopupByEmailRejections(st: Tables, caller: Option<User>, email: Option<string>, amount: Option<real>, now: int)
    ensures var o := TopupByEmailTurn(st, caller, email, amount, now);
      && (o.reply.Err? ==> o.after == st)
      && (!(caller.Some? && caller.value.isAdmin) ==> o.reply == Fail(403, "Доступ запрещён"))
      && ((caller.Some? && caller.value.isAdmin && (email.None? || email.value == "" || BadAmount(amount)))
          ==> o.reply == Fail(400, "Неверные параметры"))
      && ((&& caller.Some? && caller.value.isAdmin && email.Some? && email.value != "" && !BadAmount(amount)
           && forall k :: 0 <= k < |st.users| ==> st.users[k].email != Some(email.value))
          ==> o.reply == Fail(404, "Пользователь не найден"))
      && (o.reply.Ok? <==> (&& caller.Some? && caller.value.isAdmin && email.Some? && email.value != "" && !BadAmount(amount)
                            && exists k :: 0 <= k < |st.users| && st.users[k].email == Some(email.value)))
  {
  }

  /** A credit raises exactly the target's balance by the amount and adds
      exactly one top-up row of that amount for the target, so balance and
      ledger move together. */
  lemma CreditEffect(st: Tables, i: nat, amount: real, now: int)
    requires UniqueUserIds(st.users) && i < |st.users|
    ensures var o := Credit(st, Some(i), amount, now);
      && o.reply == Ok(200, TopupAnswer(true, st.users[i].balance + amount))
      && |o.after.users| == |st.users|
      && (forall k :: 0 <= k < |st.users| ==>
            o.after.users[k] == (if st.users[k].id == st.users[i].id
                                 then st.users[k].(balance := st.users[k].balance + amount) else st.users[k]))
      && o.after.transactions == st.transactions + [Transaction(st.users[i].id, Topup, amount, ADMIN_TOPUP, now)]
      && o.after.sessions == st.sessions && o.after.messages == st.messages && o.after.nextId == st.nextId
      && Ledger(o.after.transactions, st.users[i].id) == Ledger(st.transactions, st.users[i].id) + amount
  {
    LedgerAppend(st.transactions, Transaction(st.users[i].id, Topup, amount, ADMIN_TOPUP, now), st.users[i].id);
  }

  lemma CreditKeepsTablesOk(st: Tables, found: Option<nat>, amount: real, now: int)
    requires TablesOk(st) && (found.Some? ==> found.value < |st.users|)
    ensures TablesOk(Credit(st, found, amount, now).after)
    ensures BalancesNonNegative(st.users) && amount > 0.0 ==> BalancesNonNegative(Credit(st, found, amount, now).after.users)
  {
    if found.Some? {
      var i := found.value;
      var v := st.users[i].(balance := st.users[i].balance + amount);
      EntryTablesOk(st, i, v, Transaction(st.users[i].id, Topup, amount, ADMIN_TOPUP, now));
    }
  }

  /** The by-e-mail route behaves exactly as the by-id route for the user
      the e-mail finds. */
  lemma TopupByEmailIsTopup(st: Tables, caller: Option<User>, email: string, amount: Option<real>, now: int, j: nat)
    requires UniqueUserIds(st.users) && email != ""
    requires UserByEmail(st.users, email) == Some(j)
    ensures TopupByEmailTurn(st, caller, Some(email), amount, now) == TopupTurn(st, caller, Some(st.users[j].id), amount, now)
  {
    var r := UserById(st.users, st.users[j].id);
    assert st.users[r.value].id == st.users[j].id;
  }

  method AdminTopup(db: Db, caller: Option<User>, userId: Option<Id>, amount: Option<real>, now: int)
    returns (r: Reply<TopupAnswer>)
    requires db.Valid()
    modifies db
    ensures r == TopupTurn(old(db.State()), caller, userId, amount, now).reply
    ensures db.State() == TopupTurn(old(db.State()), caller, userId, amount, now).after
    ensures db.Valid()
    ensures old(db.Solvent()) ==> db.Solvent()
  {
    if caller.None? || !caller.value.isAdmin {
      return Fail(403, "Доступ запрещён");
    }
    if userId.None? || amount.None? || amount.value <= 0.0 {
      return Fail(400, "Неверные параметры");
    }
    var found := UserById(db.users, userId.value);
    r := CreditFound(db, found, amount.value, now);
  }

  method AdminTopupByEmail(db: Db, caller: Option<User>, email: Option<string>, amount: Option<real>, now: int)
    returns (r: Reply<TopupAnswer>)
    requires db.Valid()
    modifies db
    ensures r == TopupByEmailTurn(old(db.State()), caller, email, amount, now).reply
    ensures db.State() == TopupByEmailTurn(old(db.State()), caller, email, amount, now).after
    ensures db.Valid()
    ensures old(db.Solvent()) ==> db.Solvent()
  {
    if caller.None? || !caller.value.isAdmin {
      return Fail(403, "Доступ запрещён");
    }
    if email.None? || email.value == "" || amount.None? || amount.value <= 0.0 {
      return Fail(400, "Неверные параметры");
    }
    var found := UserByEmail(db.users, email.value);
    r := CreditFound(db, found, amount.value, now);
  }

  /** The lookup result and the write shared by both top-up routes. */
  method CreditFound(db: Db, found: Option<nat>, amount: real, now: int) returns (r: Reply<TopupAnswer>)
    requires db.Valid() && (found.Some? ==> found.value < |db.users|) && amount > 0.0
    modifies db
    ensures r == Credit(old(db.State()), found, amount, now).reply
    ensures db.State() == Credit(old(db.State()), found, amount, now).after
    ensures db.Valid()
    ensures old(db.Solvent()) ==> db.Solvent()
  {
    CreditKeepsTablesOk(db.State(), found, amount, now);
    if found.None? {
      return Fail(404, "Пользователь не найден");
    }
    var i := found.value;
    var user := db.users[i];
    var newBalance := user.balance + amount;
    db.UpdateUserWithTransaction(i, user.(balance := newBalance), Transaction(user.id, Topup, amount, ADMIN_TOPUP, now));
    r := Ok(200, TopupAnswer(true, newBalance));
  }

  // ---------------------------------------------------------------------
  // POST /block-user

  /** `user.update({ where: { id: userId }, data: { isBlocked: block } })`;
      an absent or unknown id makes the update throw (500). */
  function BlockTurn(st: Tables, caller: Option<User>, userId: Option<Id>, block: bool): Outcome<Reply<bool>> {
    if AdminGuard(caller).Err? then Outcome(Fail(403, "Доступ запрещён"), st)
    else if userId.None? then Outcome(Fail(500, "Ошибка блокировки"), st)
    else match UserById(st.users, userId.value)
      case None => Outcome(Fail(500, "Ошибка блокировки"), st)
      case Some(i) => Outcome(Ok(200, true), st.(users := st.users[i := st.users[i].(isBlocked := block)]))
  }

  /** Blocking sets the flag of the one user with that id and changes
      nothing else; it needs an administrator and a stored id. */
  lemma BlockEffect(st: Tables, caller: Option<User>, userId: Option<Id>, block: bool)
    requires UniqueUserIds(st.users)
    ensures var o := BlockTurn(st, caller, userId, block);
      && (o.reply.Ok? <==> (&& caller.Some? && caller.value.isAdmin && userId.Some?
                            && exists k :: 0 <= k < |st.users| && st.users[k].id == userId.value))
      && (o.reply.Err? ==> o.after == st)
      && (o.reply.Ok? ==>
            && o.after.sessions == st.sessions && o.after.messages == st.messages
            && o.after.transactions == st.transactions && o.after.nextId == st.nextId
            && |o.after.users| == |st.users|
            && forall k :: 0 <= k < |st.users| ==>
                 o.after.users[k] == (if st.users[k].id == userId.value then st.users[k].(isBlocked := block)
                                      else st.users[k]))
  {
    if caller.Some? && caller.value.isAdmin && userId.Some? {
      var r := UserById(st.users, userId.value);
      if r.Some? {
        forall k | 0 <= k < |st.users| && st.users[k].id == userId.value ensures k == r.value {
          assert st.users[k].id == st.users[r.value].id;
        }
      }
    }
  }

  lemma BlockKeepsTablesOk(st: Tables, caller: Option<User>, userId: Option<Id>, block: bool)
    requires TablesOk(st)
    ensures TablesOk(BlockTurn(st, caller, userId, block).after)
    ensures BalancesNonNegative(st.users) ==> BalancesNonNegative(BlockTurn(st, caller, userId, block).after.users)
  {
    if caller.Some? && caller.value.isAdmin && userId.Some? {
      match UserById(st.users, userId.value)
      case None =>
      case Some(i) => ProfileUpdateTablesOk(st, i, st.users[i].(isBlocked := block));
    }
  }

  /** A blocked user's bearer token no longer gets through: the check
      answers 403 however valid the token. */
  lemma BlockedBearerRefused(st: Tables, caller: Option<User>, id: Id, header: string, verify: string -> Option<Id>)
    requires UniqueUserIds(st.users)
    requires BlockTurn(st, caller, Some(id), true).reply.Ok?
    requires StartsWith(header, BEARER) && verify(BearerToken(header)) == Some(id)
    ensures AuthMiddleware.AuthMiddleware(BlockTurn(st, caller, Some(id), true).after.users, Some(header), verify)
         == Fail(403, "Аккаунт заблокирован")
  {
    var users := BlockTurn(st, caller, Some(id), true).after.users;
    var i := UserById(st.users, id).value;
    assert users[i].id == id && users[i].isBlocked;
    var j := UserById(users, id).value;
    assert users[j].id == users[i].id;
    assert UniqueUserIds(users) by {
      forall a, b | 0 <= a < b < |users| ensures users[a].id != users[b].id {
        assert users[a].id == st.users[a].id && users[b].id == st.users[b].id;
      }
    }
  }

  method BlockUser(db: Db, caller: Option<User>, userId: Option<Id>, block: bool) returns (r: Reply<bool>)
    requires db.Valid()
    modifies db
    ensures r == BlockTurn(old(db.State()), caller, userId, block).reply
    ensures db.State() == BlockTurn(old(db.State()), caller, userId, block).after
    ensures db.Valid()
    ensures old(db.Solvent()) ==> db.Solvent()
  {
    BlockKeepsTablesOk(db.State(), caller, userId, block);
    if caller.None? || !caller.value.isAdmin {
      return Fail(403, "Доступ запрещён");
    }
    if userId.None? {
      return Fail(500, "Ошибка блокировки");
    }
    var found := UserById(db.users, userId.value);
    if found.None? {
      return Fail(500, "Ошибка блокировки");
    }
    var i := found.value;
    db.UpdateUser(i, db.users[i].(isBlocked := block));
    r := Ok(200, true);
  }

  // ---------------------------------------------------------------------
  // GET /stats, /users, /transactions

  datatype AdminStats = AdminStats(totalUsers: nat, totalBalance: real, totalRevenue: real, recentUsers: seq<User>)

  /** `aggregate({ _sum: { balance: true } })` over the users. */
  function TotalBalance(us: seq<User>): (total: real)
    ensures us == [] ==> total == 0.0
    ensures BalancesNonNegative(us) ==> total >= 0.0
    ensures BalancesNonNegative(us) ==> forall i :: 0 <= i < |us| ==> us[i].balance <= total
    decreases |us|
  {
    if us == [] then 0.0 else TotalBalance(us[..|us| - 1]) + us[|us| - 1].balance
  }

  /** Replacing one user row moves the total by exactly that row's change of balance. */
  lemma {:induction false} TotalBalanceUpdate(us: seq<User>, i: nat, u: User)
    requires i < |us|
    ensures TotalBalance(us[i := u]) == TotalBalance(us) - us[i].balance + u.balance
    decreases |us|
  {
    var n := |us| - 1;
    if i == n {
      assert us[i := u][..n] == us[..n];
    } else {
      assert us[i := u][..n] == us[..n][i := u];
      TotalBalanceUpdate(us[..n], i, u);
    }
  }

  /** An administrator's credit raises the total balance by the amount. */
  lemma CreditRaisesTotal(st: Tables, i: nat, amount: real, now: int)
    requires i < |st.users|
    ensures TotalBalance(Credit(st, Some(i), amount, now).after.users) == TotalBalance(st.users) + amount
  {
    var u := st.users[i].(balance := st.users[i].balance + amount);
    assert Credit(st, Some(i), amount, now).after.users == st.users[i := u];
    TotalBalanceUpdate(st.users, i, u);
  }

  function AnyRow(t: Transaction): bool { true }

  /** The revenue: the size of the sum of all usage rows. */
  function Revenue(ts: seq<Transaction>): (r: real)
    ensures r >= 0.0
  {
    Abs(UsageSum(ts, AnyRow))
  }

  /** While usage rows are debits, the revenue is minus their sum, and a new
      usage row of minus `cost` adds `cost` to it. */
  lemma RevenueGrowsByCost(ts: seq<Transaction>, t: Transaction, cost: real)
    requires forall k :: 0 <= k < |ts| && ts[k].kind == Usage ==> ts[k].amount <= 0.0
    requires t.kind == Usage && t.amount == -cost && cost >= 0.0
    ensures Revenue(ts) == -UsageSum(ts, AnyRow)
    ensures Revenue(ts + [t]) == Revenue(ts) + cost
  {
    UsageSumNonPositive(ts, AnyRow);
    UsageAppend(ts, t, AnyRow);
  }

  function Stats(st: Tables, caller: Option<User>): (r: Reply<AdminStats>)
    ensures r.Err? <==> !(caller.Some? && caller.value.isAdmin)
    ensures r.Err? ==> r == Fail(403, "Доступ запрещён")
    ensures r.Ok? ==> && r.value.totalUsers == |st.users| && r.value.totalRevenue == Revenue(st.transactions)
                      && r.value.totalBalance == TotalBalance(st.users)
                      && |r.value.recentUsers| == (if |st.users| < 10 then |st.users| else 10)
                      && forall k :: 0 <= k < |r.value.recentUsers| ==> r.value.recentUsers[k] == st.users[|st.users| - 1 - k]
  {
    if AdminGuard(caller).Err? then Fail(403, "Доступ запрещён")
    else Ok(200, AdminStats(|st.users|, TotalBalance(st.users), Revenue(st.transactions),
                            SkipTake(NewestFirst(st.users), 0, 10)))
  }

  /** GET /users: the hundred newest users, newest first. */
  function UserList(st: Tables, caller: Option<User>): (r: Reply<seq<User>>)
    ensures r.Err? <==> !(caller.Some? && caller.value.isAdmin)
    ensures r.Ok? ==> |r.value| == (if |st.users| < 100 then |st.users| else 100)
                      && forall k :: 0 <= k < |r.value| ==> r.value[k] == st.users[|st.users| - 1 - k]
  {
    if AdminGuard(caller).Err? then Fail(403, "Доступ запрещён")
    else Ok(200, SkipTake(NewestFirst(st.users), 0, 100))
  }

  /** A ledger row with its owner's e-mail and Telegram id. */
  datatype LedgerLine = LedgerLine(row: Transaction, email: Option<string>, telegramId: Option<string>)

  function WithOwner(us: seq<User>, t: Transaction): LedgerLine {
    match UserById(us, t.userId)
    case None => LedgerLine(t, None, None)
    case Some(i) => LedgerLine(t, us[i].email, us[i].telegramId)
  }

  /** GET /transactions: the hundred newest ledger rows, newest first. */
  function TransactionList(st: Tables, caller: Option<User>): (r: Reply<seq<LedgerLine>>)
    ensures r.Err? <==> !(caller.Some? && caller.value.isAdmin)
    ensures r.Ok? ==> |r.value| == (if |st.transactions| < 100 then |st.transactions| else 100)
                      && forall k :: 0 <= k < |r.value| ==> r.value[k].row == st.transactions[|st.transactions| - 1 - k]
  {
    if AdminGuard(caller).Err? then Fail(403, "Доступ запрещён")
    else
      var rows := SkipTake(NewestFirst(st.transactions), 0, 100);
      Ok(200, seq(|rows|, k requires 0 <= k < |rows| => WithOwner(st.users, rows[k])))
  }
}
