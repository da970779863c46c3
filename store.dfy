/** The relational store behind the server (the Prisma client), as one
    object holding the four tables in creation order, plus the invariants
    the route handlers keep:
    - ids are unique and below the id counter, emails and Telegram ids are unique;
    - every user's balance equals the sum of that user's ledger amounts;
    - at most one active session exists per (user, domain).
    Non-negative balances are kept apart, as `Solvent`, because the store
    only preserves them when the configured welcome bonus is non-negative. */
module Store {
  import opened Wrappers
  import opened PageTypes

  /** Row ids. Prisma's generated ids are opaque; here they come from a counter. */
  type Id = nat

  datatype TxKind = Topup | Usage

  datatype User = User(
    id: Id,
    email: Option<string>,
    telegramId: Option<string>,
    passwordHash: Option<string>,
    firstName: Option<string>,
    lastName: Option<string>,
    username: Option<string>,
    balance: real,
    isBlocked: bool,
    isAdmin: bool,
    apiKeyHash: Option<string>)

  datatype Session = Session(id: Id, userId: Id, domain: string, isActive: bool)

  /** A stored chat turn. `pageUrl` and `pageData` are set on user turns,
      the token counts and `cost` on assistant turns. */
  datatype Message = Message(
    id: Id,
    sessionId: Id,
    role: Role,
    content: string,
    pageUrl: Option<string>,
    pageData: Option<PageData>,
    inputTokens: Option<nat>,
    outputTokens: Option<nat>,
    cost: Option<real>)

  /** A ledger row; `amount` is signed (top-ups positive, usage negative). */
  datatype Transaction = Transaction(userId: Id, kind: TxKind, amount: real, description: string, createdAt: int)

  // ---------------------------------------------------------------------
  // Lookups: findUnique / findFirst

  function UserById(us: seq<User>, id: Id): (r: Option<nat>)
    ensures r.Some? ==> r.value < |us| && us[r.value].id == id
    ensures r.Some? ==> forall j :: 0 <= j < r.value ==> us[j].id != id
    ensures r.None? ==> forall i :: 0 <= i < |us| ==> us[i].id != id
    decreases |us|
  {
    if us == [] then None
    else if us[0].id == id then Some(0)
    else match UserById(us[1..], id)
      case None => None
      case Some(i) => Some(i + 1)
  }

  /** With unique ids, looking up a stored user's id finds that user. */
  lemma UserByIdOfMember(us: seq<User>, u: User)
    requires UniqueUserIds(us) && u in us
    ensures UserById(us, u.id).Some? && us[UserById(us, u.id).value] == u
  {
    var k :| 0 <= k < |us| && us[k] == u;
    var i := UserById(us, u.id).value;
    assert us[i].id == us[k].id;
  }

  function UserByEmail(us: seq<User>, email: string): (r: Option<nat>)
    ensures r.Some? ==> r.value < |us| && us[r.value].email == Some(email)
    ensures r.Some? ==> forall j :: 0 <= j < r.value ==> us[j].email != Some(email)
    ensures r.None? ==> forall i :: 0 <= i < |us| ==> us[i].email != Some(email)
    decreases |us|
  {
    if us == [] then None
    else if us[0].email == Some(email) then Some(0)
    else match UserByEmail(us[1..], email)
      case None => None
      case Some(i) => Some(i + 1)
  }

  function UserByTelegramId(us: seq<User>, telegramId: string): (r: Option<nat>)
    ensures r.Some? ==> r.value < |us| && us[r.value].telegramId == Some(telegramId)
    ensures r.None? ==> forall i :: 0 <= i < |us| ==> us[i].telegramId != Some(telegramId)
    decreases |us|
  {
    if us == [] then None
    else if us[0].telegramId == Some(telegramId) then Some(0)
    else match UserByTelegramId(us[1..], telegramId)
      case None => None
      case Some(i) => Some(i + 1)
  }

  /** The session matched by `findFirst({ id, userId, domain, isActive: true })`. */
  predicate IsActiveSessionOf(s: Session, id: Id, userId: Id, domain: string) {
    s.id == id && s.userId == userId && s.domain == domain && s.isActive
  }

  function ActiveSessionById(ss: seq<Session>, id: Id, userId: Id, domain: string): (r: Option<nat>)
    ensures r.Some? ==> r.value < |ss| && IsActiveSessionOf(ss[r.value], id, userId, domain)
    ensures r.None? ==> forall i :: 0 <= i < |ss| ==> !IsActiveSessionOf(ss[i], id, userId, domain)
    decreases |ss|
  {
    if ss == [] then None
    else if IsActiveSessionOf(ss[0], id, userId, domain) then Some(0)
    else match ActiveSessionById(ss[1..], id, userId, domain)
      case None => None
      case Some(i) => Some(i + 1)
  }

  /** The session matched by `findFirst({ id, userId })`. */
  function OwnedSession(ss: seq<Session>, id: Id, userId: Id): (r: Option<nat>)
    ensures r.Some? ==> r.value < |ss| && ss[r.value].id == id && ss[r.value].userId == userId
    ensures r.None? ==> forall i :: 0 <= i < |ss| ==> !(ss[i].id == id && ss[i].userId == userId)
    decreases |ss|
  {
    if ss == [] then None
    else if ss[0].id == id && ss[0].userId == userId then Some(0)
    else match OwnedSession(ss[1..], id, userId)
      case None => None
      case Some(i) => Some(i + 1)
  }

  /** The messages of one session in creation order (`findMany` ordered by
      `createdAt` ascending). */
  function MessagesOf(ms: seq<Message>, sessionId: Id): (r: seq<Message>)
    ensures |r| <= |ms|
    ensures forall k :: 0 <= k < |r| ==> r[k].sessionId == sessionId && r[k] in ms
    decreases |ms|
  {
    if ms == [] then []
    else (if ms[0].sessionId == sessionId then [ms[0]] else []) + MessagesOf(ms[1..], sessionId)
  }

  /** Appending a message extends exactly its own session's history, at the end. */
  lemma {:induction false} MessagesOfAppend(ms: seq<Message>, m: Message, sessionId: Id)
    ensures MessagesOf(ms + [m], sessionId)
         == MessagesOf(ms, sessionId) + (if m.sessionId == sessionId then [m] else [])
    decreases |ms|
  {
    if ms == [] {
      assert ms + [m] == [m];
    } else {
      var head: seq<Message> := if ms[0].sessionId == sessionId then [ms[0]] else [];
      var tail: seq<Message> := if m.sessionId == sessionId then [m] else [];
      assert (ms + [m])[0] == ms[0] && (ms + [m])[1..] == ms[1..] + [m];
      assert MessagesOf(ms + [m], sessionId) == head + MessagesOf(ms[1..] + [m], sessionId);
      MessagesOfAppend(ms[1..], m, sessionId);
      assert head + (MessagesOf(ms[1..], sessionId) + tail) == (head + MessagesOf(ms[1..], sessionId)) + tail;
    }
  }

  // ---------------------------------------------------------------------
  // The ledger

  /** Sum of the signed amounts of `userId`'s ledger rows. */
  function Ledger(ts: seq<Transaction>, userId: Id): real
    decreases |ts|
  {
    if ts == [] then 0.0
    else Ledger(ts[..|ts| - 1], userId) + (if ts[|ts| - 1].userId == userId then ts[|ts| - 1].amount else 0.0)
  }

  lemma LedgerAppend(ts: seq<Transaction>, t: Transaction, userId: Id)
    ensures Ledger(ts + [t], userId) == Ledger(ts, userId) + (if t.userId == userId then t.amount else 0.0)
  {
    assert (ts + [t])[..|ts|] == ts;
  }

  /** A user with no ledger rows has a ledger sum of zero. */
  lemma {:induction false} LedgerOfStranger(ts: seq<Transaction>, userId: Id)
    requires forall i :: 0 <= i < |ts| ==> ts[i].userId != userId
    ensures Ledger(ts, userId) == 0.0
    decreases |ts|
  {
    if ts != [] {
      LedgerOfStranger(ts[..|ts| - 1], userId);
    }
  }

  // ---------------------------------------------------------------------
  // Queries: ordering, paging, aggregates

  /** `orderBy: { createdAt: 'desc' }` over rows kept in creation order. */
  function NewestFirst<T>(s: seq<T>): (r: seq<T>)
    ensures |r| == |s|
    ensures forall k :: 0 <= k < |s| ==> r[k] == s[|s| - 1 - k]
  {
    seq(|s|, k requires 0 <= k < |s| => s[|s| - 1 - k])
  }

  /** `skip` then `take`: at most `take` rows from position `skip` on. */
  function SkipTake<T>(s: seq<T>, skip: nat, take: nat): (r: seq<T>)
    ensures |r| == if skip >= |s| then 0 else if |s| - skip < take then |s| - skip else take
    ensures forall k :: 0 <= k < |r| ==> r[k] == s[skip + k]
  {
    if skip >= |s| then [] else if |s| - skip < take then s[skip..] else s[skip..skip + take]
  }

  function Abs(x: real): (r: real)
    ensures r >= 0.0 && (r == x || r == -x)
  {
    if x < 0.0 then -x else x
  }

  /** `aggregate({ where: { type: 'usage', ... }, _sum: { amount } })`, with
      the filter as `keep`; an empty match sums to 0. */
  function UsageSum(ts: seq<Transaction>, keep: Transaction -> bool): real
    decreases |ts|
  {
    if ts == [] then 0.0
    else UsageSum(ts[..|ts| - 1], keep)
         + (if ts[|ts| - 1].kind == Usage && keep(ts[|ts| - 1]) then ts[|ts| - 1].amount else 0.0)
  }

  /** `_count` of the same aggregate. */
  function UsageCount(ts: seq<Transaction>, keep: Transaction -> bool): (n: nat)
    ensures n <= |ts|
    decreases |ts|
  {
    if ts == [] then 0
    else UsageCount(ts[..|ts| - 1], keep) + (if ts[|ts| - 1].kind == Usage && keep(ts[|ts| - 1]) then 1 else 0)
  }

  /** A new ledger row enters the aggregates exactly when it is a usage row the filter keeps. */
  lemma UsageAppend(ts: seq<Transaction>, t: Transaction, keep: Transaction -> bool)
    ensures UsageSum(ts + [t], keep) == UsageSum(ts, keep) + (if t.kind == Usage && keep(t) then t.amount else 0.0)
    ensures UsageCount(ts + [t], keep) == UsageCount(ts, keep) + (if t.kind == Usage && keep(t) then 1 else 0)
  {
    assert (ts + [t])[..|ts|] == ts;
  }

  /** When every kept usage row is a debit (not positive), the sum is not positive. */
  lemma {:induction false} UsageSumNonPositive(ts: seq<Transaction>, keep: Transaction -> bool)
    requires forall k :: 0 <= k < |ts| && ts[k].kind == Usage && keep(ts[k]) ==> ts[k].amount <= 0.0
    ensures UsageSum(ts, keep) <= 0.0
    decreases |ts|
  {
    if ts != [] {
      UsageSumNonPositive(ts[..|ts| - 1], keep);
    }
  }

  // ---------------------------------------------------------------------
  // Invariants over table contents

  predicate UniqueUserIds(us: seq<User>) {
    forall i, j :: 0 <= i < j < |us| ==> us[i].id != us[j].id
  }

  predicate UniqueEmails(us: seq<User>) {
    forall i, j :: 0 <= i < j < |us| && us[i].email.Some? ==> us[i].email != us[j].email
  }

  predicate UniqueTelegramIds(us: seq<User>) {
    forall i, j :: 0 <= i < j < |us| && us[i].telegramId.Some? ==> us[i].telegramId != us[j].telegramId
  }

  predicate UsersOk(us: seq<User>, nextId: Id) {
    && (forall i :: 0 <= i < |us| ==> us[i].id < nextId)
    && UniqueUserIds(us) && UniqueEmails(us) && UniqueTelegramIds(us)
  }

  /** Every user's balance is reconciled with the user's ledger rows. */
  predicate LedgerMatches(us: seq<User>, ts: seq<Transaction>) {
    forall i :: 0 <= i < |us| ==> us[i].balance == Ledger(ts, us[i].id)
  }

  predicate BalancesNonNegative(us: seq<User>) {
    forall i :: 0 <= i < |us| ==> us[i].balance >= 0.0
  }

  /** At most one active session per (user, domain). */
  predicate SingleActive(ss: seq<Session>) {
    forall i, j :: 0 <= i < j < |ss| && ss[i].isActive && ss[j].isActive ==>
      ss[i].userId != ss[j].userId || ss[i].domain != ss[j].domain
  }

  predicate SessionsOk(ss: seq<Session>, nextId: Id) {
    && (forall i :: 0 <= i < |ss| ==> ss[i].id < nextId)
    && (forall i, j :: 0 <= i < j < |ss| ==> ss[i].id != ss[j].id)
    && SingleActive(ss)
  }

  predicate MessagesOk(ms: seq<Message>, nextId: Id) {
    && (forall i :: 0 <= i < |ms| ==> ms[i].id < nextId)
    && (forall i, j :: 0 <= i < j < |ms| ==> ms[i].id != ms[j].id)
  }

  predicate TransactionsOk(ts: seq<Transaction>, nextId: Id) {
    forall i :: 0 <= i < |ts| ==> ts[i].userId < nextId
  }

  // ---------------------------------------------------------------------
  // Ledger preservation

  /** Adding a fresh user together with the ledger row of its opening
      balance keeps every balance reconciled. */
  lemma LedgerAfterNewUser(us: seq<User>, ts: seq<Transaction>, u: User, t: Transaction)
    requires LedgerMatches(us, ts)
    requires forall i :: 0 <= i < |us| ==> us[i].id < u.id
    requires TransactionsOk(ts, u.id)
    requires t.userId == u.id && t.amount == u.balance
    ensures LedgerMatches(us + [u], ts + [t])
  {
    LedgerOfStranger(ts, u.id);
    forall i | 0 <= i < |us| + 1
      ensures (us + [u])[i].balance == Ledger(ts + [t], (us + [u])[i].id)
    {
      LedgerAppend(ts, t, (us + [u])[i].id);
    }
  }

  /** Changing one user's balance by the amount of one new ledger row of
      that user keeps every balance reconciled. */
  lemma LedgerAfterEntry(us: seq<User>, ts: seq<Transaction>, i: nat, u: User, t: Transaction)
    requires LedgerMatches(us, ts) && UniqueUserIds(us)
    requires i < |us| && u.id == us[i].id && t.userId == u.id
    requires u.balance == us[i].balance + t.amount
    ensures LedgerMatches(us[i := u], ts + [t])
  {
    var v := us[i := u];
    forall k | 0 <= k < |v|
      ensures v[k].balance == Ledger(ts + [t], v[k].id)
    {
      LedgerAppend(ts, t, v[k].id);
    }
  }

  /** A profile change that keeps id and balance keeps the ledger reconciled. */
  lemma LedgerAfterProfileUpdate(us: seq<User>, ts: seq<Transaction>, i: nat, u: User)
    requires LedgerMatches(us, ts)
    requires i < |us| && u.id == us[i].id && u.balance == us[i].balance
    ensures LedgerMatches(us[i := u], ts)
  {
  }

  // ---------------------------------------------------------------------
  // Session operations as values

  /** `updateMany({ where: { userId, domain, isActive: true }, data: { isActive: false } })` */
  function Deactivated(ss: seq<Session>, userId: Id, domain: string): (r: seq<Session>)
    ensures |r| == |ss|
    ensures forall k :: 0 <= k < |ss| ==>
      r[k] == (if ss[k].userId == userId && ss[k].domain == domain then ss[k].(isActive := false) else ss[k])
  {
    seq(|ss|, k requires 0 <= k < |ss| =>
      if ss[k].userId == userId && ss[k].domain == domain then ss[k].(isActive := false) else ss[k])
  }

  /** Deactivating a (user, domain) and then adding one active session for
      it keeps at most one active session per (user, domain) and keeps ids
      unique. */
  lemma {:induction false} DeactivateThenCreate(ss: seq<Session>, nextId: Id, userId: Id, domain: string)
    requires SessionsOk(ss, nextId)
    ensures SessionsOk(Deactivated(ss, userId, domain) + [Session(nextId, userId, domain, true)], nextId + 1)
  {
    var d := Deactivated(ss, userId, domain);
    var r := d + [Session(nextId, userId, domain, true)];
    forall i, j | 0 <= i < j < |r| && r[i].isActive && r[j].isActive
      ensures r[i].userId != r[j].userId || r[i].domain != r[j].domain
    {
      if j < |d| {
        assert ss[i].isActive && ss[j].isActive;
      }
    }
  }

  /** `deleteMany({ where: { id, userId } })` */
  function WithoutOwned(ss: seq<Session>, id: Id, userId: Id): (r: seq<Session>)
    ensures |r| <= |ss|
    ensures forall k :: 0 <= k < |r| ==> r[k] in ss && !(r[k].id == id && r[k].userId == userId)
    ensures forall s :: s in ss && !(s.id == id && s.userId == userId) ==> s in r
    decreases |ss|
  {
    if ss == [] then []
    else (if ss[0].id == id && ss[0].userId == userId then [] else [ss[0]]) + WithoutOwned(ss[1..], id, userId)
  }

  /** Deleting rows keeps the session invariants. */
  lemma {:induction false} WithoutOwnedKeeps(ss: seq<Session>, nextId: Id, id: Id, userId: Id)
    requires SessionsOk(ss, nextId)
    ensures SessionsOk(WithoutOwned(ss, id, userId), nextId)
    decreases |ss|
  {
    if ss != [] {
      SessionsOkTail(ss, nextId);
      WithoutOwnedKeeps(ss[1..], nextId, id, userId);
      if !(ss[0].id == id && ss[0].userId == userId) {
        SessionsOkCons(ss, WithoutOwned(ss[1..], id, userId), nextId);
      }
    }
  }

  lemma SessionsOkTail(ss: seq<Session>, nextId: Id)
    requires ss != [] && SessionsOk(ss, nextId)
    ensures SessionsOk(ss[1..], nextId)
  {
    var t := ss[1..];
    forall i, j | 0 <= i < j < |t| ensures t[i].id != t[j].id {
      assert t[i] == ss[i + 1] && t[j] == ss[j + 1];
    }
    forall i, j | 0 <= i < j < |t| && t[i].isActive && t[j].isActive
      ensures t[i].userId != t[j].userId || t[i].domain != t[j].domain
    {
      assert t[i] == ss[i + 1] && t[j] == ss[j + 1];
    }
  }

  /** Putting the head of `ss` back in front of rows taken from its tail keeps the invariants. */
  lemma SessionsOkCons(ss: seq<Session>, rest: seq<Session>, nextId: Id)
    requires ss != [] && SessionsOk(ss, nextId) && SessionsOk(rest, nextId)
    requires forall k :: 0 <= k < |rest| ==> rest[k] in ss[1..]
    ensures SessionsOk([ss[0]] + rest, nextId)
  {
    var r := [ss[0]] + rest;
    forall k | 0 <= k < |rest|
      ensures rest[k].id != ss[0].id
      ensures ss[0].isActive && rest[k].isActive ==> ss[0].userId != rest[k].userId || ss[0].domain != rest[k].domain
    {
      assert rest[k] in ss[1..];
      var p :| 0 <= p < |ss[1..]| && ss[1..][p] == rest[k];
      assert ss[p + 1] == rest[k];
    }
    forall i, j | 0 <= i < j < |r| ensures r[i].id != r[j].id {
      if i > 0 { assert r[i] == rest[i - 1] && r[j] == rest[j - 1]; }
      else { assert r[j] == rest[j - 1]; }
    }
    forall i, j | 0 <= i < j < |r| && r[i].isActive && r[j].isActive
      ensures r[i].userId != r[j].userId || r[i].domain != r[j].domain
    {
      if i > 0 { assert r[i] == rest[i - 1] && r[j] == rest[j - 1]; }
      else { assert r[j] == rest[j - 1]; }
    }
  }

  // ---------------------------------------------------------------------
  // The store object

  /** The contents of the four tables and the id counter. */
  datatype Tables = Tables(users: seq<User>, sessions: seq<Session>, messages: seq<Message>,
                           transactions: seq<Transaction>, nextId: Id)

  /** The invariants the handlers keep. */
  predicate TablesOk(t: Tables) {
    && UsersOk(t.users, t.nextId)
    && LedgerMatches(t.users, t.transactions)
    && TransactionsOk(t.transactions, t.nextId)
    && SessionsOk(t.sessions, t.nextId)
    && MessagesOk(t.messages, t.nextId)
  }

  /** What a handler answers and the tables it leaves behind. */
  datatype Outcome<R> = Outcome(reply: R, after: Tables)

  /** A new user under the next id, whose email and Telegram id no stored
      user has, together with the ledger row of its opening balance, keeps
      the invariants. */
  lemma NewUserTablesOk(st: Tables, u: User, t: Transaction)
    requires TablesOk(st) && u.id == st.nextId
    requires u.email.Some? ==> UserByEmail(st.users, u.email.value).None?
    requires u.telegramId.Some? ==> UserByTelegramId(st.users, u.telegramId.value).None?
    requires t.userId == u.id && t.amount == u.balance
    ensures TablesOk(Tables(st.users + [u], st.sessions, st.messages, st.transactions + [t], st.nextId + 1))
  {
    LedgerAfterNewUser(st.users, st.transactions, u, t);
  }

  /** A change of one user row that keeps its id, balance, email and
      Telegram id keeps the invariants. */
  lemma ProfileUpdateTablesOk(st: Tables, i: nat, v: User)
    requires TablesOk(st) && i < |st.users|
    requires v.id == st.users[i].id && v.balance == st.users[i].balance
    requires v.email == st.users[i].email && v.telegramId == st.users[i].telegramId
    ensures TablesOk(st.(users := st.users[i := v]))
  {
    LedgerAfterProfileUpdate(st.users, st.transactions, i, v);
  }

  /** Changing one user's balance by the amount of one new ledger row of
      that user keeps the invariants. */
  lemma EntryTablesOk(st: Tables, i: nat, v: User, t: Transaction)
    requires TablesOk(st) && i < |st.users|
    requires v == st.users[i].(balance := v.balance) && t.userId == v.id
    requires v.balance == st.users[i].balance + t.amount
    ensures TablesOk(st.(users := st.users[i := v], transactions := st.transactions + [t]))
  {
    LedgerAfterEntry(st.users, st.transactions, i, v, t);
  }

  class Db {
    var users: seq<User>
    var sessions: seq<Session>
    var messages: seq<Message>
    var transactions: seq<Transaction>
    /** The next id the store hands out (all ids so far are below it). */
    var nextId: Id

    function State(): Tables
      reads this
    {
      Tables(users, sessions, messages, transactions, nextId)
    }

    ghost predicate Valid()
      reads this
    {
      TablesOk(State())
    }

    ghost predicate Solvent()
      reads this
    {
      BalancesNonNegative(users)
    }

    constructor ()
      ensures Valid() && Solvent()
      ensures users == [] && sessions == [] && messages == [] && transactions == []
    {
      users, sessions, messages, transactions := [], [], [], [];
      nextId := 0;
    }

    /** `user.create`: a fresh id, not blocked, not an admin, no API key. */
    method CreateUser(email: Option<string>, telegramId: Option<string>, passwordHash: Option<string>,
                      firstName: Option<string>, lastName: Option<string>, username: Option<string>,
                      balance: real)
      returns (u: User)
      modifies this
      ensures u == User(old(nextId), email, telegramId, passwordHash, firstName, lastName, username,
                        balance, false, false, None)
      ensures users == old(users) + [u] && nextId == old(nextId) + 1
      ensures sessions == old(sessions) && messages == old(messages) && transactions == old(transactions)
    {
      u := User(nextId, email, telegramId, passwordHash, firstName, lastName, username, balance, false, false, None);
      users := users + [u];
      nextId := nextId + 1;
    }

    /** `user.update` of the row at position `i`. */
    method UpdateUser(i: nat, u: User)
      requires i < |users|
      modifies this
      ensures users == old(users)[i := u]
      ensures sessions == old(sessions) && messages == old(messages)
      ensures transactions == old(transactions) && nextId == old(nextId)
    {
      users := users[i := u];
    }

    /** `transaction.create` */
    method CreateTransaction(t: Transaction)
      modifies this
      ensures transactions == old(transactions) + [t]
      ensures users == old(users) && sessions == old(sessions)
      ensures messages == old(messages) && nextId == old(nextId)
    {
      transactions := transactions + [t];
    }

    /** `$transaction([user.update, transaction.create])`: both writes at once. */
    method UpdateUserWithTransaction(i: nat, u: User, t: Transaction)
      requires i < |users|
      modifies this
      ensures users == old(users)[i := u] && transactions == old(transactions) + [t]
      ensures sessions == old(sessions) && messages == old(messages) && nextId == old(nextId)
    {
      users, transactions := users[i := u], transactions + [t];
    }

    /** `session.updateMany` deactivating a (user, domain). */
    method DeactivateSessions(userId: Id, domain: string)
      modifies this
      ensures sessions == Deactivated(old(sessions), userId, domain)
      ensures users == old(users) && messages == old(messages)
      ensures transactions == old(transactions) && nextId == old(nextId)
    {
      sessions := Deactivated(sessions, userId, domain);
    }

    /** `session.create`; a new session is active by default. */
    method CreateSession(userId: Id, domain: string) returns (s: Session)
      modifies this
      ensures s == Session(old(nextId), userId, domain, true)
      ensures sessions == old(sessions) + [s] && nextId == old(nextId) + 1
      ensures users == old(users) && messages == old(messages) && transactions == old(transactions)
    {
      s := Session(nextId, userId, domain, true);
      sessions := sessions + [s];
      nextId := nextId + 1;
    }

    /** `session.deleteMany({ where: { id, userId } })` */
    method DeleteSessions(id: Id, userId: Id)
      modifies this
      ensures sessions == WithoutOwned(old(sessions), id, userId)
      ensures users == old(users) && messages == old(messages)
      ensures transactions == old(transactions) && nextId == old(nextId)
    {
      sessions := WithoutOwned(sessions, id, userId);
    }

    /** `message.create` */
    method CreateMessage(sessionId: Id, role: Role, content: string, pageUrl: Option<string>,
                         pageData: Option<PageData>, inputTokens: Option<nat>,
                         outputTokens: Option<nat>, cost: Option<real>)
      returns (m: Message)
      modifies this
      ensures m == Message(old(nextId), sessionId, role, content, pageUrl, pageData, inputTokens, outputTokens, cost)
      ensures messages == old(messages) + [m] && nextId == old(nextId) + 1
      ensures users == old(users) && sessions == old(sessions) && transactions == old(transactions)
    {
      m := Message(nextId, sessionId, role, content, pageUrl, pageData, inputTokens, outputTokens, cost);
      messages := messages + [m];
      nextId := nextId + 1;
    }
  }
}
