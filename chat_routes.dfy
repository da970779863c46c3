/** The chat routes. The central one, POST /api/chat/message, runs one chat
    turn against the store:
    1. pick the domain of the page;
    2. reuse the supplied session, or deactivate the caller's active
       sessions of that domain and open a new one;
    3. take the session's history window;
    4. ask the model (the SDK call is the parameter `sdk`);
    5. price the answer;
    6. check the caller's balance;
    7. store the user turn and the assistant turn;
    8. debit the balance and record a usage transaction.
    `ChatTurn` states what one turn answers and leaves in the store;
    `PostMessage` performs it write by write. GET /history and
    DELETE /session follow. */
module ChatRoutes {
  import opened Wrappers
  import opened Strings
  import opened PageTypes
  import opened Http
  import opened Store
  import opened Domain
  import opened PageFormat
  import opened ClaudeService
  import opened AuthMiddleware

  /** The validated body of POST /message. `sessionId` is `None` when it is
      absent or empty. */
  datatype MessageRequest = MessageRequest(message: string, pageData: PageData, sessionId: Option<Id>)

  /** The success body: the answer, the session used and the usage figures. */
  datatype ChatAnswer = ChatAnswer(answer: string, sessionId: Id, inputTokens: nat, outputTokens: nat,
                                   cost: real, balanceRemaining: real)

  /** `Math.round(x * 10000) / 10000`: JavaScript rounds halves upwards. */
  function Round4(x: real): (r: real)
    ensures x - 0.00005 < r <= x + 0.00005
  {
    ((x * 10000.0 + 0.5).Floor as real) / 10000.0
  }

  /** Values that already have at most four decimals are left alone. */
  lemma Round4Exact(k: int)
    ensures Round4(k as real / 10000.0) == k as real / 10000.0
  {
    var x := k as real / 10000.0;
    assert x * 10000.0 == k as real;
    assert (x * 10000.0 + 0.5).Floor == k;
  }

  // ---------------------------------------------------------------------
  // Session resolution

  /** The sessions after resolution, the session the turn uses, and the id counter. */
  datatype Resolution = Resolution(sessions: seq<Session>, session: Session, nextId: Id)

  /** A supplied id is reused only when it names an active session of this
      user and domain; otherwise the user's active sessions of the domain are
      deactivated and a new active one is created. */
  function Resolve(ss: seq<Session>, nextId: Id, sessionId: Option<Id>, userId: Id, domain: string): (r: Resolution)
    ensures r.session in r.sessions && r.session.isActive
    ensures r.session.userId == userId && r.session.domain == domain
  {
    var found := if sessionId.Some? then ActiveSessionById(ss, sessionId.value, userId, domain) else None;
    if found.Some? then Resolution(ss, ss[found.value], nextId)
    else
      var s := Session(nextId, userId, domain, true);
      Resolution(Deactivated(ss, userId, domain) + [s], s, nextId + 1)
  }

  /** Reuse happens exactly when the supplied id names an active session of
      this user and domain; then nothing changes. */
  lemma ResolveReuse(ss: seq<Session>, nextId: Id, sessionId: Option<Id>, userId: Id, domain: string)
    ensures var r := Resolve(ss, nextId, sessionId, userId, domain);
      (r.sessions == ss && r.nextId == nextId)
      <==> (sessionId.Some? && exists i :: 0 <= i < |ss| && IsActiveSessionOf(ss[i], sessionId.value, userId, domain))
  {
    var r := Resolve(ss, nextId, sessionId, userId, domain);
    if !(sessionId.Some? && ActiveSessionById(ss, sessionId.value, userId, domain).Some?) {
      assert r.nextId == nextId + 1;
    }
  }

  /** The turn's session is the supplied one when that one is usable. */
  lemma ResolveUsesSupplied(ss: seq<Session>, nextId: Id, id: Id, userId: Id, domain: string)
    requires SessionsOk(ss, nextId)
    requires exists i :: 0 <= i < |ss| && IsActiveSessionOf(ss[i], id, userId, domain)
    ensures Resolve(ss, nextId, Some(id), userId, domain).session.id == id
  {
  }

  /** Resolution keeps the session invariants, in particular at most one
      active session per (user, domain). */
  lemma ResolveKeepsSessionsOk(ss: seq<Session>, nextId: Id, sessionId: Option<Id>, userId: Id, domain: string)
    requires SessionsOk(ss, nextId)
    ensures var r := Resolve(ss, nextId, sessionId, userId, domain);
      SessionsOk(r.sessions, r.nextId) && r.nextId >= nextId
  {
    var found := if sessionId.Some? then ActiveSessionById(ss, sessionId.value, userId, domain) else None;
    if found.None? {
      DeactivateThenCreate(ss, nextId, userId, domain);
    }
  }

  /** After resolution the turn's session is the only active session of
      this user and domain. */
  lemma ResolveOnlyActive(ss: seq<Session>, nextId: Id, sessionId: Option<Id>, userId: Id, domain: string)
    requires SessionsOk(ss, nextId)
    ensures var r := Resolve(ss, nextId, sessionId, userId, domain);
      forall s :: s in r.sessions && s.isActive && s.userId == userId && s.domain == domain ==> s == r.session
  {
    var r := Resolve(ss, nextId, sessionId, userId, domain);
    ResolveKeepsSessionsOk(ss, nextId, sessionId, userId, domain);
    forall s | s in r.sessions && s.isActive && s.userId == userId && s.domain == domain
      ensures s == r.session
    {
      var i :| 0 <= i < |r.sessions| && r.sessions[i] == s;
      var j :| 0 <= j < |r.sessions| && r.sessions[j] == r.session;
      SingleActiveUnique(r.sessions, i, j);
    }
  }

  lemma SingleActiveUnique(ss: seq<Session>, i: nat, j: nat)
    requires SingleActive(ss) && i < |ss| && j < |ss|
    requires ss[i].isActive && ss[j].isActive && ss[i].userId == ss[j].userId && ss[i].domain == ss[j].domain
    ensures i == j
  {
  }

  /** Resolving again with the id that a turn answered reuses that session. */
  lemma ResolveIdempotent(ss: seq<Session>, nextId: Id, sessionId: Option<Id>, userId: Id, domain: string)
    requires SessionsOk(ss, nextId)
    ensures var r := Resolve(ss, nextId, sessionId, userId, domain);
      Resolve(r.sessions, r.nextId, Some(r.session.id), userId, domain) == r
  {
    var r := Resolve(ss, nextId, sessionId, userId, domain);
    ResolveKeepsSessionsOk(ss, nextId, sessionId, userId, domain);
    var j :| 0 <= j < |r.sessions| && r.sessions[j] == r.session;
    assert IsActiveSessionOf(r.sessions[j], r.session.id, userId, domain);
    var k := ActiveSessionById(r.sessions, r.session.id, userId, domain).value;
    assert r.sessions[k].id == r.sessions[j].id;
  }

  // ---------------------------------------------------------------------
  // History window

  /** Number of history messages sent to the model. */
  const HISTORY_TAKE: nat := 20

  /** The session's messages in creation order, at most the first 20,
      projected to (role, content). These are the oldest 20, although the
      comment above the query speaks of the last 20. */
  function HistoryWindow(ms: seq<Message>, sessionId: Id): (h: seq<ChatMessage>)
    ensures |h| == Min(HISTORY_TAKE, |MessagesOf(ms, sessionId)|)
    ensures forall k :: 0 <= k < |h| ==>
      h[k] == ChatMessage(MessagesOf(ms, sessionId)[k].role, MessagesOf(ms, sessionId)[k].content)
  {
    var own := MessagesOf(ms, sessionId);
    seq(Min(HISTORY_TAKE, |own|), k requires 0 <= k < Min(HISTORY_TAKE, |own|) => ChatMessage(own[k].role, own[k].content))
  }

  /** Once a session holds 20 messages its window no longer changes: new
      turns are not shown to the model. */
  lemma HistoryWindowFrozen(ms: seq<Message>, m: Message, sessionId: Id)
    requires |MessagesOf(ms, sessionId)| >= HISTORY_TAKE
    ensures HistoryWindow(ms + [m], sessionId) == HistoryWindow(ms, sessionId)
  {
    MessagesOfAppend(ms, m, sessionId);
  }

  /** Messages of other sessions do not enter the window. */
  lemma HistoryWindowOtherSession(ms: seq<Message>, m: Message, sessionId: Id)
    requires m.sessionId != sessionId
    ensures HistoryWindow(ms + [m], sessionId) == HistoryWindow(ms, sessionId)
  {
    MessagesOfAppend(ms, m, sessionId);
  }

  // ---------------------------------------------------------------------
  // One chat turn

  function UsageDescription(inputTokens: nat, outputTokens: nat): string {
    "Запрос: " + NatToString(inputTokens) + " in / " + NatToString(outputTokens) + " out"
  }

  /** The whole turn. `caller` is the user record the API-key check
      attached to the request, `multiplier` the price markup, `now` the
      time stamped on the transaction. */
  function ChatTurn(st: Tables, caller: Option<User>, body: MessageRequest, multiplier: real,
                    sdk: SdkRequest -> Option<SdkMessage>, now: int): Outcome<Reply<ChatAnswer>>
  {
    if caller.None? then Outcome(Fail(401, "Не авторизован"), st)
    else if body.message == "" then Outcome(Fail(400, "Сообщение не может быть пустым"), st)
    else
      var res := Resolve(st.sessions, st.nextId, body.sessionId, caller.value.id, DomainOf(body.pageData.url));
      var resolved := st.(sessions := res.sessions, nextId := res.nextId);
      match sdk(Request(body.message, Formatted(body.pageData), HistoryWindow(st.messages, res.session.id)))
      case None => Outcome(Fail(500, "Ошибка обработки запроса"), resolved)
      case Some(resp) => Settle(resolved, res.session.id, caller.value, body, resp, multiplier, now)
  }

  /** Steps 5 to 8 on the store after session resolution: price the answer,
      check the caller's snapshot balance, write the two turns, the new
      balance and the usage transaction. The balance update fails (500,
      after the two turns are written) if the caller's row is gone. */
  function Settle(st: Tables, sessionId: Id, u: User, body: MessageRequest, resp: SdkMessage,
                  multiplier: real, now: int): Outcome<Reply<ChatAnswer>>
  {
    var cost := CalculateCost(resp.inputTokens, resp.outputTokens, multiplier);
    if u.balance < cost then
      Outcome(Err(402, ErrorBody("Недостаточно средств", Some(cost), Some(u.balance), None)), st)
    else
      var written := st.(messages := st.messages + TurnMessages(st.nextId, sessionId, body, resp, cost),
                         nextId := st.nextId + 2);
      var newBalance := u.balance - cost;
      match UserById(st.users, u.id)
      case None => Outcome(Fail(500, "Ошибка обработки запроса"), written)
      case Some(i) =>
        Outcome(Ok(200, ChatAnswer(FirstText(resp.content), sessionId, resp.inputTokens, resp.outputTokens,
                                   Round4(cost), Round4(newBalance))),
                written.(users := st.users[i := st.users[i].(balance := newBalance)],
                         transactions := st.transactions + [UsageTransaction(u.id, resp, cost, now)]))
  }

  /** The user turn (with the page) and the assistant turn (with the token
      counts and the unrounded price), under the next two ids. */
  function TurnMessages(next: Id, sessionId: Id, body: MessageRequest, resp: SdkMessage, cost: real): seq<Message> {
    [Message(next, sessionId, UserTurn, body.message, Some(body.pageData.url), Some(body.pageData), None, None, None),
     Message(next + 1, sessionId, AssistantTurn, FirstText(resp.content), None, None,
             Some(resp.inputTokens), Some(resp.outputTokens), Some(cost))]
  }

  function UsageTransaction(userId: Id, resp: SdkMessage, cost: real, now: int): Transaction {
    Transaction(userId, Usage, -cost, UsageDescription(resp.inputTokens, resp.outputTokens), now)
  }

  /** The caller's record as stored. */
  predicate StoredCaller(st: Tables, caller: Option<User>) {
    caller.Some? ==> caller.value in st.users
  }

  /** Rejections before the session step leave the store as it was, in the
      order: no user (401), then an empty message (400). */
  lemma ChatTurnEarlyErrors(st: Tables, caller: Option<User>, body: MessageRequest, multiplier: real,
                            sdk: SdkRequest -> Option<SdkMessage>, now: int)
    ensures caller.None? ==> ChatTurn(st, caller, body, multiplier, sdk, now) == Outcome(Fail(401, "Не авторизован"), st)
    ensures caller.Some? && body.message == "" ==>
      ChatTurn(st, caller, body, multiplier, sdk, now) == Outcome(Fail(400, "Сообщение не может быть пустым"), st)
  {
  }

  /** A failed model call answers 500 but keeps the session changes. */
  lemma ChatTurnModelFailure(st: Tables, u: User, body: MessageRequest, multiplier: real,
                             sdk: SdkRequest -> Option<SdkMessage>, now: int)
    requires body.message != ""
    requires var res := Resolve(st.sessions, st.nextId, body.sessionId, u.id, DomainOf(body.pageData.url));
      sdk(Request(body.message, Formatted(body.pageData), HistoryWindow(st.messages, res.session.id))).None?
    ensures var res := Resolve(st.sessions, st.nextId, body.sessionId, u.id, DomainOf(body.pageData.url));
      ChatTurn(st, Some(u), body, multiplier, sdk, now)
        == Outcome(Fail(500, "Ошибка обработки запроса"), st.(sessions := res.sessions, nextId := res.nextId))
  {
  }

  /** Settling keeps the store invariants when the caller is stored. */
  lemma SettleKeepsTablesOk(st: Tables, sessionId: Id, u: User, body: MessageRequest, resp: SdkMessage,
                            multiplier: real, now: int)
    requires TablesOk(st) && u in st.users
    ensures TablesOk(Settle(st, sessionId, u, body, resp, multiplier, now).after)
  {
    var cost := CalculateCost(resp.inputTokens, resp.outputTokens, multiplier);
    if u.balance >= cost {
      UserByIdOfMember(st.users, u);
      var i := UserById(st.users, u.id).value;
      var users := st.users[i := st.users[i].(balance := u.balance - cost)];
      var t := UsageTransaction(u.id, resp, cost, now);
      var ms := TurnMessages(st.nextId, sessionId, body, resp, cost);
      var after := Tables(users, st.sessions, st.messages + ms, st.transactions + [t], st.nextId + 2);
      assert Settle(st, sessionId, u, body, resp, multiplier, now).after == after;
      PaidTablesOk(st, i, users[i], t, ms);
    }
  }

  /** A debit with its ledger row and two fresh messages keep the invariants. */
  lemma PaidTablesOk(st: Tables, i: nat, v: User, t: Transaction, ms: seq<Message>)
    requires TablesOk(st) && i < |st.users|
    requires v == st.users[i].(balance := v.balance) && t.userId == v.id
    requires v.balance == st.users[i].balance + t.amount
    requires |ms| == 2 && ms[0].id == st.nextId && ms[1].id == st.nextId + 1
    ensures TablesOk(Tables(st.users[i := v], st.sessions, st.messages + ms, st.transactions + [t], st.nextId + 2))
  {
    LedgerAfterEntry(st.users, st.transactions, i, v, t);
    UsersOkAfterBalance(st.users, st.nextId, i, v);
    assert MessagesOk(st.messages + ms, st.nextId + 2);
  }

  /** Changing only a balance keeps the user invariants, under a larger counter too. */
  lemma UsersOkAfterBalance(us: seq<User>, nextId: Id, i: nat, u: User)
    requires UsersOk(us, nextId) && i < |us| && u == us[i].(balance := u.balance)
    ensures UsersOk(us[i := u], nextId + 2)
  {
  }

  /** The turn keeps every store invariant: unique ids, reconciled
      balances, at most one active session per (user, domain). */
  lemma ChatTurnKeepsTablesOk(st: Tables, caller: Option<User>, body: MessageRequest, multiplier: real,
                              sdk: SdkRequest -> Option<SdkMessage>, now: int)
    requires TablesOk(st) && StoredCaller(st, caller)
    ensures TablesOk(ChatTurn(st, caller, body, multiplier, sdk, now).after)
  {
    if caller.Some? && body.message != "" {
      var u := caller.value;
      var res := Resolve(st.sessions, st.nextId, body.sessionId, u.id, DomainOf(body.pageData.url));
      ResolveKeepsSessionsOk(st.sessions, st.nextId, body.sessionId, u.id, DomainOf(body.pageData.url));
      var resolved := st.(sessions := res.sessions, nextId := res.nextId);
      assert TablesOk(resolved);
      match sdk(Request(body.message, Formatted(body.pageData), HistoryWindow(st.messages, res.session.id)))
      case None =>
      case Some(resp) => SettleKeepsTablesOk(resolved, res.session.id, u, body, resp, multiplier, now);
    }
  }

  /** A turn only debits what the snapshot balance covers, so balances stay
      non-negative. */
  lemma SettleKeepsSolvent(st: Tables, sessionId: Id, u: User, body: MessageRequest, resp: SdkMessage,
                           multiplier: real, now: int)
    requires BalancesNonNegative(st.users)
    ensures BalancesNonNegative(Settle(st, sessionId, u, body, resp, multiplier, now).after.users)
  {
  }

  lemma ChatTurnKeepsSolvent(st: Tables, caller: Option<User>, body: MessageRequest, multiplier: real,
                             sdk: SdkRequest -> Option<SdkMessage>, now: int)
    requires BalancesNonNegative(st.users)
    ensures BalancesNonNegative(ChatTurn(st, caller, body, multiplier, sdk, now).after.users)
  {
    if caller.Some? && body.message != "" {
      var res := Resolve(st.sessions, st.nextId, body.sessionId, caller.value.id, DomainOf(body.pageData.url));
      var resolved := st.(sessions := res.sessions, nextId := res.nextId);
      match sdk(Request(body.message, Formatted(body.pageData), HistoryWindow(st.messages, res.session.id)))
      case None =>
      case Some(resp) => SettleKeepsSolvent(resolved, res.session.id, caller.value, body, resp, multiplier, now);
    }
  }

  /** A balance short of the price answers 402 with the price and the
      balance, and writes no message, no transaction and no balance. A
      balance equal to the price is enough. */
  lemma SettleShortfall(st: Tables, sessionId: Id, u: User, body: MessageRequest, resp: SdkMessage,
                        multiplier: real, now: int)
    ensures var o := Settle(st, sessionId, u, body, resp, multiplier, now);
      var cost := CalculateCost(resp.inputTokens, resp.outputTokens, multiplier);
      (o.reply.Err? && o.reply.status == 402) <==> u.balance < cost
    ensures var o := Settle(st, sessionId, u, body, resp, multiplier, now);
      var cost := CalculateCost(resp.inputTokens, resp.outputTokens, multiplier);
      u.balance < cost ==>
        && o.reply == Err(402, ErrorBody("Недостаточно средств", Some(cost), Some(u.balance), None))
        && o.after == st
  {
  }

  /** A paid turn appends exactly the user turn and then the assistant
      turn, sets the caller's balance to the snapshot minus the price, which
      is not negative, and appends exactly one usage transaction of minus
      the price. Only the reply's figures are rounded. */
  lemma SettlePaid(st: Tables, sessionId: Id, u: User, body: MessageRequest, resp: SdkMessage,
                   multiplier: real, now: int)
    requires UniqueUserIds(st.users) && u in st.users
    requires u.balance >= CalculateCost(resp.inputTokens, resp.outputTokens, multiplier)
    ensures var o := Settle(st, sessionId, u, body, resp, multiplier, now);
      var cost := CalculateCost(resp.inputTokens, resp.outputTokens, multiplier);
      && o.after.messages == st.messages + TurnMessages(st.nextId, sessionId, body, resp, cost)
      && o.after.transactions == st.transactions + [Transaction(u.id, Usage, -cost,
             UsageDescription(resp.inputTokens, resp.outputTokens), now)]
      && |o.after.users| == |st.users|
      && (forall k :: 0 <= k < |st.users| ==>
            o.after.users[k] == (if st.users[k].id == u.id then st.users[k].(balance := u.balance - cost) else st.users[k]))
      && u.balance - cost >= 0.0
      && o.after.sessions == st.sessions
      && o.reply == Ok(200, ChatAnswer(FirstText(resp.content), sessionId, resp.inputTokens, resp.outputTokens,
                                        Round4(cost), Round4(u.balance - cost)))
  {
    UserByIdOfMember(st.users, u);
    var i := UserById(st.users, u.id).value;
    forall k | 0 <= k < |st.users| && st.users[k].id == u.id ensures k == i {
      assert st.users[k].id == st.users[i].id;
    }
  }

  /** The two stored turns: user first, then assistant, in the turn's session. */
  lemma TurnMessagesShape(next: Id, sessionId: Id, body: MessageRequest, resp: SdkMessage, cost: real)
    ensures var ms := TurnMessages(next, sessionId, body, resp, cost);
      && |ms| == 2
      && ms[0].role == UserTurn && ms[0].content == body.message && ms[0].pageUrl == Some(body.pageData.url)
      && ms[1].role == AssistantTurn && ms[1].content == FirstText(resp.content) && ms[1].cost == Some(cost)
      && ms[1].inputTokens == Some(resp.inputTokens) && ms[1].outputTokens == Some(resp.outputTokens)
      && ms[0].sessionId == sessionId && ms[1].sessionId == sessionId
  {
  }

  // ---------------------------------------------------------------------
  // The handler, write by write

  method PostMessage(db: Db, caller: Option<User>, body: MessageRequest, multiplier: real,
                     sdk: SdkRequest -> Option<SdkMessage>, now: int)
    returns (r: Reply<ChatAnswer>)
    requires db.Valid() && StoredCaller(db.State(), caller)
    modifies db
    ensures r == ChatTurn(old(db.State()), caller, body, multiplier, sdk, now).reply
    ensures db.State() == ChatTurn(old(db.State()), caller, body, multiplier, sdk, now).after
    ensures db.Valid()
    ensures old(db.Solvent()) ==> db.Solvent()
  {
    ghost var st := db.State();
    ChatTurnKeepsTablesOk(st, caller, body, multiplier, sdk, now);
    if db.Solvent() {
      ChatTurnKeepsSolvent(st, caller, body, multiplier, sdk, now);
    }
    if caller.None? {
      return Fail(401, "Не авторизован");
    }
    if body.message == "" {
      return Fail(400, "Сообщение не может быть пустым");
    }
    var user := caller.value;
    var domain := DomainOf(body.pageData.url);
    ChatTurnAfterResolve(st, user, body, multiplier, sdk, now);
    var session := ResolveSession(db, body.sessionId, user.id, domain);
    var chatHistory := HistoryWindow(db.messages, session.id);
    var response := SendToClaude(body.message, body.pageData, chatHistory, sdk);
    ghost var sent := sdk(Request(body.message, Formatted(body.pageData), chatHistory));
    if response.None? {
      return Fail(500, "Ошибка обработки запроса");
    }
    r := SettleTurn(db, session.id, user, body, sent.value, response.value, multiplier, now);
  }

  /** The turn after the two early checks, in two stages. */
  lemma ChatTurnAfterResolve(st: Tables, u: User, body: MessageRequest, multiplier: real,
                             sdk: SdkRequest -> Option<SdkMessage>, now: int)
    requires body.message != ""
    ensures var res := Resolve(st.sessions, st.nextId, body.sessionId, u.id, DomainOf(body.pageData.url));
      var resolved := st.(sessions := res.sessions, nextId := res.nextId);
      var sent := sdk(Request(body.message, Formatted(body.pageData), HistoryWindow(st.messages, res.session.id)));
      ChatTurn(st, Some(u), body, multiplier, sdk, now)
        == if sent.None? then Outcome(Fail(500, "Ошибка обработки запроса"), resolved)
           else Settle(resolved, res.session.id, u, body, sent.value, multiplier, now)
  {
  }

  /** Steps 2 of the turn: findFirst, or updateMany then create. */
  method ResolveSession(db: Db, sessionId: Option<Id>, userId: Id, domain: string) returns (session: Session)
    modifies db
    ensures var res := Resolve(old(db.sessions), old(db.nextId), sessionId, userId, domain);
      && session == res.session
      && db.State() == old(db.State()).(sessions := res.sessions, nextId := res.nextId)
  {
    var found := None;
    if sessionId.Some? {
      found := ActiveSessionById(db.sessions, sessionId.value, userId, domain);
    }
    if found.Some? {
      session := db.sessions[found.value];
    } else {
      db.DeactivateSessions(userId, domain);
      session := db.CreateSession(userId, domain);
    }
  }

  /** Steps 5 to 8 of the turn, write by write; `answer` is what
      sendToClaude made of the SDK's `resp`. */
  method SettleTurn(db: Db, sessionId: Id, user: User, body: MessageRequest, ghost resp: SdkMessage,
                    answer: ClaudeResponse, multiplier: real, now: int)
    returns (r: Reply<ChatAnswer>)
    requires answer == ClaudeResponse(FirstText(resp.content), resp.inputTokens, resp.outputTokens)
    modifies db
    ensures r == Settle(old(db.State()), sessionId, user, body, resp, multiplier, now).reply
    ensures db.State() == Settle(old(db.State()), sessionId, user, body, resp, multiplier, now).after
  {
    var cost := CalculateCost(answer.inputTokens, answer.outputTokens, multiplier);
    var currentBalance := user.balance;
    if currentBalance < cost {
      return Err(402, ErrorBody("Недостаточно средств", Some(cost), Some(currentBalance), None));
    }
    var _ := db.CreateMessage(sessionId, UserTurn, body.message, Some(body.pageData.url), Some(body.pageData),
                              None, None, None);
    var _ := db.CreateMessage(sessionId, AssistantTurn, answer.content, None, None,
                              Some(answer.inputTokens), Some(answer.outputTokens), Some(cost));
    assert db.messages == old(db.messages) + TurnMessages(old(db.nextId), sessionId, body, resp, cost);
    var newBalance := currentBalance - cost;
    var index := UserById(db.users, user.id);
    if index.None? {
      return Fail(500, "Ошибка обработки запроса");
    }
    db.UpdateUser(index.value, db.users[index.value].(balance := newBalance));
    db.CreateTransaction(Transaction(user.id, Usage, -cost, UsageDescription(answer.inputTokens, answer.outputTokens), now));
    r := Ok(200, ChatAnswer(answer.content, sessionId, answer.inputTokens, answer.outputTokens,
                            Round4(cost), Round4(newBalance)));
  }

  /** POST /message behind apiKeyMiddleware: the key check decides first,
      and the turn runs with the user record it found, priced with the
      markup read from PRICE_MULTIPLIER (`None` when it is unset). */
  method ChatRoute(db: Db, apiKeyHeader: Option<string>, compare: (string, string) -> bool,
                   body: MessageRequest, priceMultiplier: Option<real>, sdk: SdkRequest -> Option<SdkMessage>, now: int)
    returns (r: Reply<ChatAnswer>)
    requires db.Valid()
    modifies db
    ensures db.Valid()
    ensures old(db.Solvent()) ==> db.Solvent()
    ensures r.Ok? ==> exists u :: u in old(db.users) && !u.isBlocked && u.balance > 0.0
                          && r == ChatTurn(old(db.State()), Some(u), body, Multiplier(priceMultiplier), sdk, now).reply
    ensures (forall i: nat :: !Passes(old(db.users), apiKeyHeader, compare, i)) ==>
              r.Err? && db.State() == old(db.State())
    ensures forall i: nat :: Passes(old(db.users), apiKeyHeader, compare, i) ==>
              var turn := ChatTurn(old(db.State()), Some(old(db.users)[i]), body, Multiplier(priceMultiplier), sdk, now);
              r == turn.reply && db.State() == turn.after
  {
    var auth := ApiKeyMiddleware(db.users, apiKeyHeader, compare);
    match auth
    case Err(status, errorBody) =>
      r := Err(status, errorBody);
    case Ok(_, user) =>
      ghost var i: nat :| Passes(db.users, apiKeyHeader, compare, i) && auth == Ok(200, db.users[i]);
      forall j: nat | Passes(db.users, apiKeyHeader, compare, j)
        ensures j == i
      {
        FirstKeyMatchUnique(db.users, apiKeyHeader.value, compare, i, j);
      }
      r := PostMessage(db, Some(user), body, Multiplier(priceMultiplier), sdk, now);
  }

  // ---------------------------------------------------------------------
  // GET /history/:sessionId and DELETE /session/:sessionId

  /** A stored message as the history route selects it (without the page snapshot). */
  datatype HistoryItem = HistoryItem(id: Id, role: Role, content: string, pageUrl: Option<string>,
                                     inputTokens: Option<nat>, outputTokens: Option<nat>, cost: Option<real>)

  datatype HistoryPage = HistoryPage(session: Session, messages: seq<HistoryItem>)

  function Item(m: Message): HistoryItem {
    HistoryItem(m.id, m.role, m.content, m.pageUrl, m.inputTokens, m.outputTokens, m.cost)
  }

  function Items(ms: seq<Message>): (r: seq<HistoryItem>)
    ensures |r| == |ms| && forall k :: 0 <= k < |ms| ==> r[k] == Item(ms[k])
  {
    seq(|ms|, k requires 0 <= k < |ms| => Item(ms[k]))
  }

  function GetHistory(st: Tables, caller: Option<User>, sessionId: Id): (r: Reply<HistoryPage>)
    ensures caller.None? ==> r == Fail(401, "Не авторизован")
    ensures caller.Some? ==>
      (r.Ok? <==> (exists i :: 0 <= i < |st.sessions| && st.sessions[i].id == sessionId && st.sessions[i].userId == caller.value.id))
    ensures caller.Some? && r.Err? ==> r == Fail(404, "Сессия не найдена")
    ensures r.Ok? ==> (&& r.status == 200 && r.value.session in st.sessions
                       && r.value.session.id == sessionId && r.value.session.userId == caller.value.id
                       && r.value.messages == Items(MessagesOf(st.messages, sessionId)))
  {
    if caller.None? then Fail(401, "Не авторизован")
    else
      match OwnedSession(st.sessions, sessionId, caller.value.id)
      case None => Fail(404, "Сессия не найдена")
      case Some(i) => Ok(200, HistoryPage(st.sessions[i], Items(MessagesOf(st.messages, sessionId))))
  }

  /** DELETE removes the caller's session rows with that id, nothing else,
      and always answers success. */
  method DeleteSession(db: Db, caller: Option<User>, sessionId: Id) returns (r: Reply<bool>)
    requires db.Valid()
    modifies db
    ensures caller.None? ==> r == Fail(401, "Не авторизован") && db.State() == old(db.State())
    ensures caller.Some? ==> (r == Ok(200, true)
      && db.State() == old(db.State()).(sessions := WithoutOwned(old(db.sessions), sessionId, caller.value.id)))
    ensures db.Valid()
  {
    if caller.None? {
      return Fail(401, "Не авторизован");
    }
    WithoutOwnedKeeps(db.sessions, db.nextId, sessionId, caller.value.id);
    db.DeleteSessions(sessionId, caller.value.id);
    r := Ok(200, true);
  }

  /** After DELETE no session with that id belongs to the caller, and every
      other session is still there. */
  lemma DeleteRemovesOnlyOwned(ss: seq<Session>, id: Id, userId: Id)
    ensures OwnedSession(WithoutOwned(ss, id, userId), id, userId).None?
    ensures forall s :: s in ss && !(s.id == id && s.userId == userId) ==> s in WithoutOwned(ss, id, userId)
  {
  }
}
