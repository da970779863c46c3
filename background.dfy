/** The extension's service worker: the per-site session ids it keeps in
    chrome.storage.local, the API key it keeps in chrome.storage.sync, and
    the requests it relays for the page script. The server is a parameter:
    `post` answers a chat request, `fetchHistory` a history request (`None`
    when it fails), `fetchBalance` a balance request. A session id is kept
    as the string the server returned. */
module Background {
  import opened Wrappers
  import opened Strings
  import opened PageTypes
  import opened Domain

  const SESSION_PREFIX: string := "session_"

  /** `session_${domain.replace(/\./g, '_')}` */
  function StorageKey(domain: string): string {
    SESSION_PREFIX + ReplaceAll(domain, '.', "_")
  }

  /** The key is the prefix followed by the domain with its dots made underscores. */
  lemma StorageKeyShape(domain: string)
    ensures StartsWith(StorageKey(domain), SESSION_PREFIX)
    ensures StorageKey(domain)[|SESSION_PREFIX|..] == ReplaceAll(domain, '.', "_")
  {
    var key := StorageKey(domain);
    assert key[..|SESSION_PREFIX|] == SESSION_PREFIX;
  }

  /** The character after the prefix is the domain's first, when that is no dot. */
  lemma StorageKeyHead(domain: string)
    requires domain != [] && domain[0] != '.'
    ensures |StorageKey(domain)| > |SESSION_PREFIX| && StorageKey(domain)[|SESSION_PREFIX|] == domain[0]
  {
    assert ReplaceAll(domain, '.', "_") == [domain[0]] + ReplaceAll(domain[1..], '.', "_");
  }

  /** The three sites get three different keys. */
  lemma StorageKeysDistinct()
    ensures StorageKey(SELLER) != StorageKey(OZON) && StorageKey(OZON) != StorageKey(UNKNOWN)
    ensures StorageKey(SELLER) != StorageKey(UNKNOWN)
  {
    StorageKeyHead(SELLER);
    StorageKeyHead(OZON);
    StorageKeyHead(UNKNOWN);
  }

  lemma StorageKeyHasNoDot(domain: string)
    ensures '.' !in StorageKey(domain)
  {
    ReplaceAllRemoves(domain, '.', "_");
    assert StorageKey(domain) == SESSION_PREFIX + ReplaceAll(domain, '.', "_");
  }

  /** `chrome.storage.local.get([key])[key]` for a site. */
  function StoredSession(local: map<string, string>, domain: string): Option<string> {
    if StorageKey(domain) in local then Some(local[StorageKey(domain)]) else None
  }

  /** Saving a session id for a site makes it that site's id and leaves
      every site with another key as it was; the three sites are such. */
  lemma SaveThenRead(local: map<string, string>, domain: string, other: string, sessionId: string)
    ensures StoredSession(local[StorageKey(domain) := sessionId], domain) == Some(sessionId)
    ensures StorageKey(other) != StorageKey(domain) ==>
      StoredSession(local[StorageKey(domain) := sessionId], other) == StoredSession(local, other)
    ensures (domain == SELLER || domain == OZON || domain == UNKNOWN) &&
            (other == SELLER || other == OZON || other == UNKNOWN) && other != domain ==>
      StoredSession(local[StorageKey(domain) := sessionId], other) == StoredSession(local, other)
  {
    StorageKeysDistinct();
  }

  /** Clearing a site removes its id and only its id. */
  lemma ClearThenRead(local: map<string, string>, domain: string, other: string)
    ensures StoredSession(local - {StorageKey(domain)}, domain).None?
    ensures StorageKey(other) != StorageKey(domain) ==>
      StoredSession(local - {StorageKey(domain)}, other) == StoredSession(local, other)
  {
  }

  /** `sessionId || await getSessionId(domain)`: an explicit, non-empty id
      wins over the stored one. */
  function ChosenSession(explicit: Option<string>, local: map<string, string>, domain: string): (r: Option<string>)
    ensures explicit.Some? && explicit.value != "" ==> r == explicit
    ensures (explicit.None? || explicit.value == "") ==> r == StoredSession(local, domain)
  {
    if explicit.Some? && explicit.value != "" then explicit else StoredSession(local, domain)
  }

  /** What apiRequest throws for a failed response: the server's error, or
      the status when it sent none. */
  function FailureText(status: nat, error: Option<string>): (r: string)
    ensures r != ""
    ensures error.Some? && error.value != "" ==> r == error.value
  {
    if error.Some? && error.value != "" then error.value else "Ошибка сервера: " + NatToString(status)
  }

  /** The usage figures of a chat answer. */
  datatype UsageInfo = UsageInfo(inputTokens: nat, outputTokens: nat, cost: real, balanceRemaining: real)

  /** The chat request posted to the server, with the key it is sent under. */
  datatype ChatCall = ChatCall(message: string, pageData: PageData, sessionId: Option<string>, apiKey: string)

  /** What the server answers a request: a success body or a failure. */
  datatype ServerReply<T> = Answered(body: T) | Failed(status: nat, error: Option<string>)

  datatype ChatBody = ChatBody(answer: string, sessionId: Option<string>, usage: Option<UsageInfo>)

  /** The relayed answer the page script gets: the chat body, or `{ error }`. */
  datatype Sent = SentAnswer(answer: string, sessionId: Option<string>, usage: Option<UsageInfo>) | SentError(error: string)

  const NO_KEY: string := "API ключ не настроен. Откройте настройки расширения."
  const NO_KEY_SHORT: string := "API ключ не настроен"

  datatype BalanceReply = BalanceShown(balance: real, email: Option<string>) | BalanceError(error: string, balance: real)

  /** What relaying a chat message answers the page script, given the
      stored session ids and the saved key: it fails before any request
      without a key; otherwise it posts with the explicit or the stored
      session id of the page's site. */
  function Relay(local: map<string, string>, apiKey: Option<string>, userMessage: string,
                 pageData: PageData, sessionId: Option<string>, post: ChatCall -> ServerReply<ChatBody>): (r: Sent)
    ensures apiKey.None? || apiKey.value == "" ==> r == SentError(NO_KEY)
    ensures r.SentError? ==> r.error != ""
    ensures r.SentAnswer? <==>
      && apiKey.Some? && apiKey.value != ""
      && post(ChatCall(userMessage, pageData, ChosenSession(sessionId, local, DomainOf(pageData.url)), apiKey.value)).Answered?
  {
    if apiKey.None? || apiKey.value == "" then SentError(NO_KEY)
    else
      var call := ChatCall(userMessage, pageData, ChosenSession(sessionId, local, DomainOf(pageData.url)), apiKey.value);
      match post(call)
      case Failed(status, error) => SentError(FailureText(status, error))
      case Answered(b) => SentAnswer(b.answer, b.sessionId, b.usage)
  }

  /** The stored session ids after the relay: an answer's non-empty session
      id becomes the one of the page's site. */
  function Relayed(local: map<string, string>, r: Sent, pageData: PageData): map<string, string> {
    if r.SentAnswer? && r.sessionId.Some? && r.sessionId.value != ""
    then local[StorageKey(DomainOf(pageData.url)) := r.sessionId.value] else local
  }

  /** After a relay the site's stored id is the answer's, when it carried
      one, and is what it was otherwise; no other site's id changes. */
  lemma RelayedSession(local: map<string, string>, r: Sent, pageData: PageData, other: string)
    ensures r.SentAnswer? && r.sessionId.Some? && r.sessionId.value != "" ==>
      StoredSession(Relayed(local, r, pageData), DomainOf(pageData.url)) == r.sessionId
    ensures StorageKey(other) != StorageKey(DomainOf(pageData.url)) ==>
      StoredSession(Relayed(local, r, pageData), other) == StoredSession(local, other)
    ensures !(r.SentAnswer? && r.sessionId.Some? && r.sessionId.value != "") ==> Relayed(local, r, pageData) == local
  {
  }

  class ExtensionStorage {
    /** chrome.storage.local: session ids by key. */
    var local: map<string, string>
    /** chrome.storage.sync's `apiKey`. */
    var apiKey: Option<string>

    constructor ()
      ensures local == map[] && apiKey.None?
    {
      local := map[];
      apiKey := None;
    }

    predicate HasKey()
      reads this
    {
      apiKey.Some? && apiKey.value != ""
    }

    /** GET_SESSION */
    function SessionId(domain: string): Option<string>
      reads this
    {
      StoredSession(local, domain)
    }

    method SaveSessionId(domain: string, sessionId: string)
      modifies this
      ensures local == old(local)[StorageKey(domain) := sessionId] && apiKey == old(apiKey)
    {
      local := local[StorageKey(domain) := sessionId];
    }

    /** sendMessage as the SEND_MESSAGE handler relays it. */
    method SendMessage(userMessage: string, pageData: PageData, sessionId: Option<string>,
                       post: ChatCall -> ServerReply<ChatBody>)
      returns (r: Sent)
      modifies this
      ensures r == Relay(old(local), old(apiKey), userMessage, pageData, sessionId, post)
      ensures local == Relayed(old(local), r, pageData) && apiKey == old(apiKey)
    {
      if apiKey.None? || apiKey.value == "" {
        r := SentError(NO_KEY);
        return;
      }
      var domain := DomainOf(pageData.url);
      var response := post(ChatCall(userMessage, pageData, ChosenSession(sessionId, local, domain), apiKey.value));
      match response
      case Failed(status, error) =>
        r := SentError(FailureText(status, error));
      case Answered(b) =>
        r := Adopt(domain, b);
    }

    /** The answered part of sendMessage: a non-empty session id is saved for the site. */
    method Adopt(domain: string, b: ChatBody) returns (r: Sent)
      modifies this
      ensures r == SentAnswer(b.answer, b.sessionId, b.usage)
      ensures local == (if b.sessionId.Some? && b.sessionId.value != "" then old(local)[StorageKey(domain) := b.sessionId.value] else old(local))
      ensures apiKey == old(apiKey)
    {
      if b.sessionId.Some? && b.sessionId.value != "" {
        SaveSessionId(domain, b.sessionId.value);
      }
      r := SentAnswer(b.answer, b.sessionId, b.usage);
    }

    /** getChatHistory: empty without a key, without a session id, or when
        the request fails. */
    function ChatHistory(sessionId: Option<string>, fetchHistory: (string, string) -> Option<seq<ChatMessage>>)
      : (r: seq<ChatMessage>)
      reads this
      ensures !HasKey() || sessionId.None? || sessionId.value == "" ==> r == []
      ensures HasKey() && sessionId.Some? && sessionId.value != "" ==>
        r == fetchHistory(sessionId.value, apiKey.value).GetOr([])
    {
      if !HasKey() || sessionId.None? || sessionId.value == "" then []
      else match fetchHistory(sessionId.value, apiKey.value)
        case None => []
        case Some(ms) => ms
    }

    /** GET_BALANCE: getBalance, or `{ error, balance: 0 }` when it throws. */
    function Balance(fetchBalance: string -> ServerReply<(real, Option<string>)>): (r: BalanceReply)
      reads this
      ensures !HasKey() ==> r == BalanceError(NO_KEY_SHORT, 0.0)
      ensures r.BalanceError? ==> r.balance == 0.0 && r.error != ""
      ensures HasKey() && fetchBalance(apiKey.value).Answered? ==>
        r == BalanceShown(fetchBalance(apiKey.value).body.0, fetchBalance(apiKey.value).body.1)
    {
      if !HasKey() then BalanceError(NO_KEY_SHORT, 0.0)
      else match fetchBalance(apiKey.value)
        case Failed(status, error) => BalanceError(FailureText(status, error), 0.0)
        case Answered(b) => BalanceShown(b.0, b.1)
    }

    /** GET_API_KEY: the key, or "" when none is saved. */
    function ApiKeyText(): (r: string)
      reads this
      ensures apiKey.Some? ==> r == apiKey.value
      ensures apiKey.None? ==> r == ""
    {
      apiKey.GetOr("")
    }

    /** SAVE_API_KEY */
    method SaveApiKey(key: string)
      modifies this
      ensures apiKey == Some(key) && local == old(local)
    {
      apiKey := Some(key);
    }

    /** CLEAR_SESSION: the site defaults to the seller cabinet; only its key goes. */
    method ClearSession(domain: Option<string>)
      modifies this
      ensures local == old(local) - {StorageKey(if domain.None? || domain.value == "" then SELLER else domain.value)}
      ensures apiKey == old(apiKey)
    {
      var d := if domain.None? || domain.value == "" then SELLER else domain.value;
      local := local - {StorageKey(d)};
    }
  }
}
