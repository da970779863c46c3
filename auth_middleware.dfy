/** The two credential checks in front of the routes.
    - `ApiKeyMiddleware` (the extension's X-API-Key header): format check,
      a scan of the users holding a key hash for the first whose hash
      verifies, then the blocked and balance checks.
    - `AuthMiddleware` (the web interface's bearer token): header form,
      token verification, user lookup and the blocked check.
    bcrypt's compare and jwt.verify are foreign: they are the parameters
    `compare` and `verify` (`None` from `verify` is a rejected token). A
    passing check is `Ok(200, user)`: the user the request continues with. */
module AuthMiddleware {
  import opened Wrappers
  import opened Strings
  import opened Http
  import opened Store
  import opened ApiKey

  /** `user.apiKeyHash && verifyApiKey(apiKey, user.apiKeyHash)`. */
  predicate KeyMatches(u: User, key: string, compare: (string, string) -> bool) {
    u.apiKeyHash.Some? && u.apiKeyHash.value != "" && compare(key, u.apiKeyHash.value)
  }

  /** `i` is the first user, in store order, whose key hash verifies. */
  predicate FirstKeyMatch(users: seq<User>, key: string, compare: (string, string) -> bool, i: nat) {
    && i < |users|
    && KeyMatches(users[i], key, compare)
    && forall j :: 0 <= j < i ==> !KeyMatches(users[j], key, compare)
  }

  /** The scan over the users with a key hash, stopping at the first match. */
  method FindKeyOwner(users: seq<User>, key: string, compare: (string, string) -> bool)
    returns (found: Option<nat>)
    ensures found.Some? ==> FirstKeyMatch(users, key, compare, found.value)
    ensures found.None? ==> forall j :: 0 <= j < |users| ==> !KeyMatches(users[j], key, compare)
  {
    found := None;
    var i := 0;
    while i < |users|
      invariant 0 <= i <= |users|
      invariant forall j :: 0 <= j < i ==> !KeyMatches(users[j], key, compare)
    {
      var u := users[i];
      if u.apiKeyHash.Some? && u.apiKeyHash.value != "" && compare(key, u.apiKeyHash.value) {
        found := Some(i);
        break;
      }
      i := i + 1;
    }
  }

  /** At most one index is the first match. */
  lemma FirstKeyMatchUnique(users: seq<User>, key: string, compare: (string, string) -> bool, i: nat, j: nat)
    requires FirstKeyMatch(users, key, compare, i) && FirstKeyMatch(users, key, compare, j)
    ensures i == j
  {
  }

  /** If some user's hash verifies, a first such user exists, at or before it. */
  lemma {:induction false} FirstMatchExists(users: seq<User>, key: string, compare: (string, string) -> bool, j: nat)
    returns (i: nat)
    requires j < |users| && KeyMatches(users[j], key, compare)
    ensures i <= j && FirstKeyMatch(users, key, compare, i)
    decreases j
  {
    if forall k :: 0 <= k < j ==> !KeyMatches(users[k], key, compare) {
      i := j;
    } else {
      var k :| 0 <= k < j && KeyMatches(users[k], key, compare);
      i := FirstMatchExists(users, key, compare, k);
    }
  }

  predicate Missing(header: Option<string>) {
    header.None? || header.value == ""
  }

  /** The request gets through apiKeyMiddleware as user `i`: a well-formed
      key whose first verifying owner is `i`, unblocked and in credit. */
  predicate Passes(users: seq<User>, header: Option<string>, compare: (string, string) -> bool, i: nat) {
    && !Missing(header) && StartsWith(header.value, KEY_PREFIX)
    && FirstKeyMatch(users, header.value, compare, i)
    && !users[i].isBlocked && users[i].balance > 0.0
  }

  /** apiKeyMiddleware's decision chain, in its order: missing key, wrong
      format, no owner, blocked owner, owner without credit. */
  method ApiKeyMiddleware(users: seq<User>, header: Option<string>, compare: (string, string) -> bool)
    returns (r: Reply<User>)
    ensures Missing(header) ==> r == Fail(401, "Требуется API ключ")
    ensures !Missing(header) && !StartsWith(header.value, KEY_PREFIX) ==> r == Fail(401, "Неверный формат API ключа")
    ensures (&& !Missing(header) && StartsWith(header.value, KEY_PREFIX)
             && (forall j :: 0 <= j < |users| ==> !KeyMatches(users[j], header.value, compare)))
              ==> r == Fail(401, "Неверный API ключ")
    ensures forall i: nat :: !Missing(header) && StartsWith(header.value, KEY_PREFIX) && FirstKeyMatch(users, header.value, compare, i) ==>
              && (users[i].isBlocked ==> r == Fail(403, "Аккаунт заблокирован"))
              && (!users[i].isBlocked && users[i].balance <= 0.0 ==>
                    r == Err(402, ErrorBody("Недостаточно средств на балансе", None, Some(0.0), None)))
              && (!users[i].isBlocked && users[i].balance > 0.0 ==> r == Ok(200, users[i]))
    ensures r.Ok? ==> r.value in users && !r.value.isBlocked && r.value.balance > 0.0
    ensures r.Ok? ==> exists i: nat :: Passes(users, header, compare, i) && r == Ok(200, users[i])
    ensures (forall i: nat :: !Passes(users, header, compare, i)) ==> r.Err?
  {
    if header.None? || header.value == "" {
      return Fail(401, "Требуется API ключ");
    }
    var apiKey := header.value;
    if !StartsWith(apiKey, KEY_PREFIX) {
      return Fail(401, "Неверный формат API ключа");
    }
    var found := FindKeyOwner(users, apiKey, compare);
    if found.None? {
      return Fail(401, "Неверный API ключ");
    }
    var user := users[found.value];
    forall i | FirstKeyMatch(users, apiKey, compare, i) ensures i == found.value {
      FirstKeyMatchUnique(users, apiKey, compare, i, found.value);
    }
    if user.isBlocked {
      return Fail(403, "Аккаунт заблокирован");
    }
    if user.balance <= 0.0 {
      return Err(402, ErrorBody("Недостаточно средств на балансе", None, Some(0.0), None));
    }
    r := Ok(200, user);
  }

  const BEARER: string := "Bearer "

  /** `authHeader.split(' ')[1]`, for a header that starts with "Bearer ". */
  function BearerToken(header: string): (token: string)
    requires StartsWith(header, BEARER)
    ensures token == Split(header[|BEARER|..], ' ')[0]
  {
    SplitAfterPrefix(header, "Bearer", ' ');
    Split(header, ' ')[1]
  }

  /** A header of the RFC 6750 section 2.1 form "Bearer <token>" yields its token. */
  lemma BearerTokenOf(token: string)
    requires ' ' !in token
    ensures StartsWith(BEARER + token, BEARER)
    ensures BearerToken(BEARER + token) == token
  {
    assert (BEARER + token)[..|BEARER|] == BEARER;
    assert (BEARER + token)[|BEARER|..] == token;
  }

  /** authMiddleware: header form, then the token, then the user, then the
      blocked flag; there is no balance check here. */
  function AuthMiddleware(users: seq<User>, header: Option<string>, verify: string -> Option<Id>): (r: Reply<User>)
    ensures (header.None? || !StartsWith(header.value, BEARER)) ==> r == Fail(401, "Требуется авторизация")
    ensures (header.Some? && StartsWith(header.value, BEARER) && verify(BearerToken(header.value)).None?)
              ==> r == Fail(401, "Неверный токен")
    ensures (header.Some? && StartsWith(header.value, BEARER) && verify(BearerToken(header.value)).Some?)
              ==> var id := verify(BearerToken(header.value)).value;
                  && ((forall i :: 0 <= i < |users| ==> users[i].id != id) ==> r == Fail(401, "Пользователь не найден"))
                  && (forall i :: 0 <= i < |users| && users[i].id == id ==> r.Ok? || r == Fail(403, "Аккаунт заблокирован"))
                  && (forall i :: (&& 0 <= i < |users| && users[i].id == id
                                   && (forall j :: 0 <= j < i ==> users[j].id != id))
                        ==> r == (if users[i].isBlocked then Fail(403, "Аккаунт заблокирован") else Ok(200, users[i])))
    ensures r.Ok? ==> r.status == 200 && r.value in users && !r.value.isBlocked
    ensures r.Ok? ==> header.Some? && StartsWith(header.value, BEARER) && Some(r.value.id) == verify(BearerToken(header.value))
  {
    if header.None? || !StartsWith(header.value, BEARER) then Fail(401, "Требуется авторизация")
    else
      match verify(BearerToken(header.value))
      case None => Fail(401, "Неверный токен")
      case Some(id) =>
        match UserById(users, id)
        case None => Fail(401, "Пользователь не найден")
        case Some(i) =>
          if users[i].isBlocked then Fail(403, "Аккаунт заблокирован")
          else Ok(200, users[i])
  }
}
