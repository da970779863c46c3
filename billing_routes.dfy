/** The billing routes: read-only views of the caller's balance and
    ledger. The window boundaries (start of today, of the week, of the
    month) are taken as parameters in the store's time unit. */
module BillingRoutes {
  import opened Wrappers
  import opened Strings
  import opened Http
  import opened Store
  import opened AuthMiddleware

  datatype BalanceAnswer = BalanceAnswer(balance: real, email: Option<string>)

  /** GET /balance for the user the API-key check attached. */
  function Balance(caller: Option<User>): (r: Reply<BalanceAnswer>)
    ensures caller.None? <==> r == Fail(401, "Не авторизован")
    ensures caller.Some? ==> r == Ok(200, BalanceAnswer(caller.value.balance, caller.value.email))
  {
    if caller.None? then Fail(401, "Не авторизован")
    else Ok(200, BalanceAnswer(caller.value.balance, caller.value.email))
  }

  /** The route with its API-key check: a balance is only ever shown when
      it is positive; the owner of a matching key without credit gets 402. */
  method BalanceRoute(users: seq<User>, header: Option<string>, compare: (string, string) -> bool)
    returns (r: Reply<BalanceAnswer>)
    ensures r.Ok? ==> r.value.balance > 0.0
                      && exists k :: 0 <= k < |users| && r.value == BalanceAnswer(users[k].balance, users[k].email)
    ensures forall i: nat :: (&& !Missing(header) && StartsWith(header.value, "oaa_")
                              && FirstKeyMatch(users, header.value, compare, i)
                              && !users[i].isBlocked && users[i].balance <= 0.0)
              ==> r == Err(402, ErrorBody("Недостаточно средств на балансе", None, Some(0.0), None))
    ensures Missing(header) ==> r == Fail(401, "Требуется API ключ")
    ensures !Missing(header) && !StartsWith(header.value, "oaa_") ==> r == Fail(401, "Неверный формат API ключа")
    ensures (&& !Missing(header) && StartsWith(header.value, "oaa_")
             && (forall j :: 0 <= j < |users| ==> !KeyMatches(users[j], header.value, compare)))
              ==> r == Fail(401, "Неверный API ключ")
    ensures forall i: nat :: (&& !Missing(header) && StartsWith(header.value, "oaa_")
                              && FirstKeyMatch(users, header.value, compare, i) && users[i].isBlocked)
              ==> r == Fail(403, "Аккаунт заблокирован")
    ensures forall i: nat :: Passes(users, header, compare, i) ==> r == Balance(Some(users[i]))
  {
    var checked := ApiKeyMiddleware(users, header, compare);
    if checked.Err? {
      return Err(checked.status, checked.body);
    }
    r := Balance(Some(checked.value));
  }

  /** The aggregate over the caller's usage rows from `since` on. */
  datatype Window = Window(spent: real, requests: nat)

  function InWindow(userId: Id, since: int): Transaction -> bool {
    (t: Transaction) => t.userId == userId && t.createdAt >= since
  }

  function WindowOf(ts: seq<Transaction>, userId: Id, since: int): (w: Window)
    ensures w.spent >= 0.0
  {
    Window(Abs(UsageSum(ts, InWindow(userId, since))), UsageCount(ts, InWindow(userId, since)))
  }

  /** Rows of other users, top-ups and rows before the window leave it as it is. */
  lemma WindowIgnoresOthers(ts: seq<Transaction>, t: Transaction, userId: Id, since: int)
    requires t.userId != userId || t.kind == Topup || t.createdAt < since
    ensures WindowOf(ts + [t], userId, since) == WindowOf(ts, userId, since)
  {
    UsageAppend(ts, t, InWindow(userId, since));
  }

  /** A debit of the caller inside the window counts one more request and,
      while the caller's usage rows are debits, adds its size to the amount spent. */
  lemma WindowCountsDebit(ts: seq<Transaction>, t: Transaction, userId: Id, since: int)
    requires t.userId == userId && t.kind == Usage && t.createdAt >= since && t.amount <= 0.0
    requires forall k :: 0 <= k < |ts| && ts[k].kind == Usage && ts[k].userId == userId ==> ts[k].amount <= 0.0
    ensures WindowOf(ts + [t], userId, since).requests == WindowOf(ts, userId, since).requests + 1
    ensures WindowOf(ts + [t], userId, since).spent == WindowOf(ts, userId, since).spent - t.amount
  {
    UsageAppend(ts, t, InWindow(userId, since));
    UsageSumNonPositive(ts, InWindow(userId, since));
  }

  /** A longer window counts at least as many requests. */
  lemma {:induction false} WindowMonotone(ts: seq<Transaction>, userId: Id, early: int, late: int)
    requires early <= late
    ensures WindowOf(ts, userId, late).requests <= WindowOf(ts, userId, early).requests
    decreases |ts|
  {
    if ts != [] {
      WindowMonotone(ts[..|ts| - 1], userId, early, late);
    }
  }

  /** A debit of the caller dated in [early, late) makes the longer window
      count strictly more requests. */
  lemma {:induction false} WindowStrict(ts: seq<Transaction>, userId: Id, early: int, late: int, j: nat)
    requires early <= late && j < |ts|
    requires ts[j].userId == userId && ts[j].kind == Usage && early <= ts[j].createdAt < late
    ensures WindowOf(ts, userId, late).requests < WindowOf(ts, userId, early).requests
    decreases |ts|
  {
    var n := |ts| - 1;
    if j < n {
      assert ts[..n][j] == ts[j];
      WindowStrict(ts[..n], userId, early, late, j);
    } else {
      WindowMonotone(ts[..n], userId, early, late);
    }
  }

  /** The caller's ledger rows, in creation order. */
  function OwnRows(ts: seq<Transaction>, userId: Id): (r: seq<Transaction>)
    ensures |r| <= |ts|
    ensures forall k :: 0 <= k < |r| ==> r[k].userId == userId && r[k] in ts
    ensures forall t :: t in ts && t.userId == userId ==> t in r
    decreases |ts|
  {
    if ts == [] then []
    else (if ts[0].userId == userId then [ts[0]] else []) + OwnRows(ts[1..], userId)
  }

  /** A new ledger row joins the end of its owner's rows and no one else's:
      the caller's rows keep the ledger's order and multiplicity. */
  lemma {:induction false} OwnRowsAppend(ts: seq<Transaction>, t: Transaction, userId: Id)
    ensures OwnRows(ts + [t], userId) == OwnRows(ts, userId) + (if t.userId == userId then [t] else [])
    decreases |ts|
  {
    if ts == [] {
      assert OwnRows([t], userId) == (if t.userId == userId then [t] else []) + OwnRows([], userId);
    } else {
      assert (ts + [t])[0] == ts[0] && (ts + [t])[1..] == ts[1..] + [t];
      OwnRowsAppend(ts[1..], t, userId);
    }
  }

  datatype UsagePage = UsagePage(transactions: seq<Transaction>, monthlySpent: real, monthlyRequests: nat)

  const DEFAULT_LIMIT: nat := 50
  const DEFAULT_OFFSET: nat := 0

  /** The page of the caller's rows: at most `limit` of them, newest
      first from position `offset`. */
  function UsageRows(ts: seq<Transaction>, userId: Id, limit: nat, offset: nat): (page: seq<Transaction>)
    ensures var own := OwnRows(ts, userId);
      && |page| == (if offset >= |own| then 0 else if |own| - offset < limit then |own| - offset else limit)
      && (forall k :: 0 <= k < |page| ==> page[k].userId == userId && page[k] in ts)
      && (forall k :: 0 <= k < |page| ==> offset + k < |own| && page[k] == own[|own| - 1 - (offset + k)])
      && (offset < |own| && limit > 0 ==> |page| > 0 && page[0] == own[|own| - 1 - offset])
  {
    UsagePageFacts(ts, userId, limit, offset);
    SkipTake(NewestFirst(OwnRows(ts, userId)), offset, limit)
  }

  /** The facts `UsageRows` promises, about the expression it returns. */
  lemma UsagePageFacts(ts: seq<Transaction>, userId: Id, limit: nat, offset: nat)
    ensures var own := OwnRows(ts, userId); var page := SkipTake(NewestFirst(own), offset, limit);
      && |page| == (if offset >= |own| then 0 else if |own| - offset < limit then |own| - offset else limit)
      && (forall k :: 0 <= k < |page| ==> page[k].userId == userId && page[k] in ts)
      && (forall k :: 0 <= k < |page| ==> offset + k < |own| && page[k] == own[|own| - 1 - (offset + k)])
      && (offset < |own| && limit > 0 ==> |page| > 0 && page[0] == own[|own| - 1 - offset])
  {
    var own := OwnRows(ts, userId);
    NewestPage(own, limit, offset);
    OwnPage(ts, userId, SkipTake(NewestFirst(own), offset, limit));
  }

  lemma OwnPage(ts: seq<Transaction>, userId: Id, page: seq<Transaction>)
    requires forall k :: 0 <= k < |page| ==> page[k] in OwnRows(ts, userId)
    ensures forall k :: 0 <= k < |page| ==> page[k].userId == userId && page[k] in ts
  {
    var own := OwnRows(ts, userId);
    forall k | 0 <= k < |page|
      ensures page[k].userId == userId && page[k] in ts
    {
      assert page[k] in own;
      var j :| 0 <= j < |own| && own[j] == page[k];
    }
  }

  /** Skipping and taking from the newest end of a list. */
  lemma NewestPage<T>(own: seq<T>, limit: nat, offset: nat)
    ensures var page := SkipTake(NewestFirst(own), offset, limit);
      && |page| == (if offset >= |own| then 0 else if |own| - offset < limit then |own| - offset else limit)
      && (forall k :: 0 <= k < |page| ==> offset + k < |own| && page[k] == own[|own| - 1 - (offset + k)])
      && (forall k :: 0 <= k < |page| ==> page[k] in own)
      && (offset < |own| && limit > 0 ==> |page| > 0 && page[0] == own[|own| - 1 - offset])
  {
    var newest := NewestFirst(own);
    var page := SkipTake(newest, offset, limit);
    forall k | 0 <= k < |page|
      ensures offset + k < |own| && page[k] == own[|own| - 1 - (offset + k)]
    {
      assert page[k] == newest[offset + k];
    }
  }

  /** GET /usage: a page of the caller's rows (50 from the newest by
      default) with the month's usage. */
  function UsageHistory(st: Tables, caller: Option<User>, limit: Option<nat>, offset: Option<nat>, monthStart: int)
    : (r: Reply<UsagePage>)
    ensures caller.None? <==> r == Fail(401, "Не авторизован")
    ensures caller.Some? ==> r.Ok? && r.value.monthlySpent >= 0.0
    ensures caller.Some? ==>
      r.value.transactions == UsageRows(st.transactions, caller.value.id, limit.GetOr(DEFAULT_LIMIT), offset.GetOr(DEFAULT_OFFSET))
  {
    if caller.None? then Fail(401, "Не авторизован")
    else
      var month := WindowOf(st.transactions, caller.value.id, monthStart);
      Ok(200, UsagePage(UsageRows(st.transactions, caller.value.id, limit.GetOr(DEFAULT_LIMIT), offset.GetOr(DEFAULT_OFFSET)),
                        month.spent, month.requests))
  }

  datatype BillingStats = BillingStats(balance: real, today: Window, week: Window, month: Window, totalMessages: nat)

  /** `message.count({ where: { session: { userId } } })`: the messages
      filed under a session row of the user. */
  function MessageCount(ms: seq<Message>, ss: seq<Session>, userId: Id): (n: nat)
    ensures n <= |ms|
    decreases |ms|
  {
    if ms == [] then 0
    else MessageCount(ms[..|ms| - 1], ss, userId) + (if OwnedBy(ss, ms[|ms| - 1].sessionId, userId) then 1 else 0)
  }

  predicate OwnedBy(ss: seq<Session>, sessionId: Id, userId: Id) {
    exists k :: 0 <= k < |ss| && ss[k].id == sessionId && ss[k].userId == userId
  }

  /** Messages appended to one of the user's sessions all count. */
  lemma {:induction false} MessageCountAppend(ms: seq<Message>, extra: seq<Message>, ss: seq<Session>, userId: Id)
    requires forall k :: 0 <= k < |extra| ==> OwnedBy(ss, extra[k].sessionId, userId)
    ensures MessageCount(ms + extra, ss, userId) == MessageCount(ms, ss, userId) + |extra|
    decreases |extra|
  {
    if extra != [] {
      var init := extra[..|extra| - 1];
      assert (ms + extra)[..|ms + extra| - 1] == ms + init;
      MessageCountAppend(ms, init, ss, userId);
    } else {
      assert ms + extra == ms;
    }
  }

  /** Messages appended outside the user's sessions (another user's or a
      missing session) do not count. */
  lemma {:induction false} MessageCountIgnoresOthers(ms: seq<Message>, extra: seq<Message>, ss: seq<Session>, userId: Id)
    requires forall k :: 0 <= k < |extra| ==> !OwnedBy(ss, extra[k].sessionId, userId)
    ensures MessageCount(ms + extra, ss, userId) == MessageCount(ms, ss, userId)
    decreases |extra|
  {
    if extra != [] {
      var init := extra[..|extra| - 1];
      assert (ms + extra)[..|ms + extra| - 1] == ms + init;
      MessageCountIgnoresOthers(ms, init, ss, userId);
    } else {
      assert ms + extra == ms;
    }
  }

  /** GET /stats for the bearer-token user. */
  function Stats(st: Tables, caller: Option<User>, todayStart: int, weekStart: int, monthStart: int)
    : (r: Reply<BillingStats>)
    ensures caller.None? <==> r == Fail(401, "Не авторизован")
    ensures caller.Some? ==> r.Ok? && r.value.balance == caller.value.balance
  {
    if caller.None? then Fail(401, "Не авторизован")
    else
      var id := caller.value.id;
      Ok(200, BillingStats(caller.value.balance, WindowOf(st.transactions, id, todayStart),
                           WindowOf(st.transactions, id, weekStart), WindowOf(st.transactions, id, monthStart),
                           MessageCount(st.messages, st.sessions, id)))
  }

  /** The day's window lies within the week's (`weekStart` is `now` minus
      seven days, `todayStart` today's midnight), and the month's contains
      both whenever it starts first. */
  lemma StatsWindowsNest(st: Tables, u: User, todayStart: int, weekStart: int, monthStart: int)
    requires weekStart <= todayStart
    ensures var s := Stats(st, Some(u), todayStart, weekStart, monthStart).value;
      && s.today.requests <= s.week.requests
      && (monthStart <= todayStart ==> s.today.requests <= s.month.requests)
      && (monthStart <= weekStart ==> s.week.requests <= s.month.requests)
  {
    WindowMonotone(st.transactions, u.id, weekStart, todayStart);
    if monthStart <= todayStart {
      WindowMonotone(st.transactions, u.id, monthStart, todayStart);
    }
    if monthStart <= weekStart {
      WindowMonotone(st.transactions, u.id, monthStart, weekStart);
    }
  }

  /** In the first days of a month the week starts before the month, and a
      debit between the two makes the week count more requests than the month. */
  lemma EarlyMonthWeekExceeds(st: Tables, u: User, todayStart: int, weekStart: int, monthStart: int, j: nat)
    requires weekStart < monthStart && j < |st.transactions|
    requires st.transactions[j].userId == u.id && st.transactions[j].kind == Usage
    requires weekStart <= st.transactions[j].createdAt < monthStart
    ensures var s := Stats(st, Some(u), todayStart, weekStart, monthStart).value;
      s.month.requests < s.week.requests
  {
    WindowStrict(st.transactions, u.id, weekStart, monthStart, j);
  }

  datatype TopupInfo = TopupInfo(message: string, telegramChannel: string, currentBalance: real)

  /** POST /topup: a placeholder that only points to the developer and echoes the balance. */
  function TopupStub(caller: Option<User>): (r: Reply<TopupInfo>)
    ensures caller.None? <==> r == Fail(401, "Не авторизован")
    ensures caller.Some? ==> r.Ok? && r.value.currentBalance == caller.value.balance
  {
    if caller.None? then Fail(401, "Не авторизован")
    else Ok(200, TopupInfo("Для пополнения баланса свяжитесь с @first_seller в Telegram",
                           "https://t.me/first_seller", caller.value.balance))
  }
}
