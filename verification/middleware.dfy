/** WebSocket authentication (apps/chat/middleware.py): the access token is
    taken from the connection's query string, decoded, and resolved to an
    active user, who becomes `scope['user']`; every failure yields the
    anonymous user. Signature checking is `jwt.decode`, which is a parameter
    here: it either returns the claims or reports an expired or otherwise
    invalid token. */
module Middleware {
  import opened Common
  import opened Database

  const TOKEN_PREFIX: string := "token="

  /** `param.split('=')[1]` for a parameter that starts with `token=`. */
  function TokenValue(param: string): string
    requires StartsWith(param, TOKEN_PREFIX)
  {
    assert param[5] == '=';
    Split(param, '=')[1]
  }

  /** The first parameter that starts with `token=` decides, as the loop's `break` does. */
  function FindToken(params: seq<string>): Option<string> {
    if |params| == 0 then None
    else if StartsWith(params[0], TOKEN_PREFIX) then Some(TokenValue(params[0]))
    else FindToken(params[1..])
  }

  /** The token of a query string, when any parameter names one. */
  function QueryToken(q: string): Option<string> {
    FindToken(Split(q, '&'))
  }

  /** The parsing loop of `JwtAuthMiddleware.__call__`. */
  method ExtractToken(q: string) returns (token: Option<string>)
    ensures token == QueryToken(q)
  {
    var params := Split(q, '&');
    token := None;
    var i := 0;
    while i < |params|
      invariant 0 <= i <= |params|
      invariant FindToken(params) == FindToken(params[i..])
    {
      if StartsWith(params[i], TOKEN_PREFIX) {
        token := Some(TokenValue(params[i]));
        return;
      }
      assert params[i..][1..] == params[i + 1..];
      i := i + 1;
    }
  }

  /** The token is the first `token=` parameter's text up to the next `=`. */
  lemma {:induction false} FindTokenIsFirstMatch(params: seq<string>)
    ensures FindToken(params).None? <==>
      forall i :: 0 <= i < |params| ==> !StartsWith(params[i], TOKEN_PREFIX)
    ensures FindToken(params).Some? ==>
      exists i :: 0 <= i < |params| && StartsWith(params[i], TOKEN_PREFIX)
        && (forall j :: 0 <= j < i ==> !StartsWith(params[j], TOKEN_PREFIX))
        && FindToken(params).value == TokenValue(params[i])
  {
    if |params| > 0 && !StartsWith(params[0], TOKEN_PREFIX) {
      var tail := params[1..];
      FindTokenIsFirstMatch(tail);
      assert forall j :: 0 <= j < |tail| ==> tail[j] == params[j + 1];
      if FindToken(tail).Some? {
        var i :| 0 <= i < |tail| && StartsWith(tail[i], TOKEN_PREFIX)
          && (forall j :: 0 <= j < i ==> !StartsWith(tail[j], TOKEN_PREFIX))
          && FindToken(tail).value == TokenValue(tail[i]);
        FirstMatchShifted(params, i);
      }
    }
  }

  /** A first match at `i` in `params[1..]` is a first match at `i + 1` in
      `params` when `params[0]` does not match. */
  lemma FirstMatchShifted(params: seq<string>, i: nat)
    requires 0 < |params| && !StartsWith(params[0], TOKEN_PREFIX) && i < |params| - 1
    requires forall j :: 0 <= j < i ==> !StartsWith(params[1..][j], TOKEN_PREFIX)
    ensures forall j :: 0 <= j < i + 1 ==> !StartsWith(params[j], TOKEN_PREFIX)
  {
    forall j | 0 < j < i + 1 ensures !StartsWith(params[j], TOKEN_PREFIX) {
      assert params[j] == params[1..][j - 1];
    }
  }

  /** The value is the text after `token=` up to the next `=`, taken as is:
      it never contains `=`, and nothing is percent-decoded. */
  lemma TokenValueIsTextUpToNextEquals(param: string)
    requires StartsWith(param, TOKEN_PREFIX)
    ensures TokenValue(param) == Before(param[6..], '=')
    ensures '=' !in TokenValue(param) && TokenValue(param) <= param[6..]
  {
    assert param[..6] == TOKEN_PREFIX;
    assert param[5] == '=';
    var i := IndexOf(param, '=');
    forall k | 0 <= k < i ensures param[k] != '=' {
      assert param[k] == param[..i][k];
    }
    assert forall k :: 0 <= k < 5 ==> param[k] == TOKEN_PREFIX[k];
    assert i == 5;
    assert Split(param, '=') == [param[..5]] + Split(param[6..], '=');
  }

  /** What `jwt.decode(token, SECRET_KEY, algorithms=['HS256'])` gives. */
  datatype DecodeResult = Claims(claims: map<string, Json>) | ExpiredSignature | InvalidToken

  /** `payload.get('user_id') or payload.get('id')`. */
  function Subject(claims: map<string, Json>): (r: Json)
    ensures Truthy(GetField(claims, "user_id")) ==> r == claims["user_id"]
    ensures !Truthy(GetField(claims, "user_id")) ==> r == GetField(claims, "id")
  {
    var uid := GetField(claims, "user_id");
    if Truthy(uid) then uid else GetField(claims, "id")
  }

  /** `get_user_from_token`: the active user the token names, or the
      anonymous user for an expired or invalid token, a missing subject, or
      an unknown or inactive user. */
  function UserFromToken(token: string, decode: string -> DecodeResult, users: seq<User>): (r: ScopeUser)
    ensures r.Authenticated? ==>
      && decode(token).Claims?
      && Subject(decode(token).claims) == JString(r.user.id)
      && r.user in users && r.user.isActive
  {
    match decode(token)
    case Claims(claims) =>
      var sub := Subject(claims);
      if Truthy(sub) && sub.JString? then
        match FindActiveUser(users, sub.s)
        case Some(u) => Authenticated(u)
        case None => Anonymous
      else Anonymous
    case _ => Anonymous
  }

  /** The user `__call__` puts in the scope for query string `q`. */
  function ScopeUserFor(q: string, decode: string -> DecodeResult, users: seq<User>): ScopeUser {
    var token := QueryToken(q);
    if token.Some? && token.value != "" then UserFromToken(token.value, decode, users) else Anonymous
  }

  /** A connection is authenticated only by a non-empty token from the query
      string that decodes to claims whose subject is an active user; with no
      usable token it is anonymous whatever the decoder would say. */
  lemma AuthenticatedOnlyByValidToken(q: string, decode: string -> DecodeResult, users: seq<User>)
    ensures ScopeUserFor(q, decode, users).Authenticated? ==>
      var u := ScopeUserFor(q, decode, users).user;
      && QueryToken(q).Some? && QueryToken(q).value != ""
      && decode(QueryToken(q).value).Claims?
      && Subject(decode(QueryToken(q).value).claims) == JString(u.id)
      && u in users && u.isActive
    ensures QueryToken(q).None? || QueryToken(q) == Some("") ==> ScopeUserFor(q, decode, users) == Anonymous
  {
  }

  /** An expired or invalid token, or claims naming a user that is not
      active, leave the connection anonymous; claims naming an active user
      authenticate it as that user. */
  lemma TokenOutcomes(token: string, decode: string -> DecodeResult, users: seq<User>, id: UserId)
    ensures decode(token).ExpiredSignature? || decode(token).InvalidToken? ==>
      UserFromToken(token, decode, users) == Anonymous
    ensures decode(token).Claims? && Subject(decode(token).claims) == JString(id) && id != "" ==>
      (UserFromToken(token, decode, users).Authenticated? <==> FindActiveUser(users, id).Some?)
  {
  }

  /** The ASGI scope the middleware completes. */
  class Scope {
    var queryString: string
    var user: Option<ScopeUser>

    constructor (q: string)
      ensures queryString == q && user == None
    {
      queryString := q;
      user := None;
    }
  }

  /** `JwtAuthMiddleware.__call__` up to handing the scope to the consumer. */
  method Authenticate(scope: Scope, decode: string -> DecodeResult, store: ChatStore)
    modifies scope
    ensures scope.queryString == old(scope.queryString)
    ensures scope.user == Some(ScopeUserFor(scope.queryString, decode, store.users))
  {
    var token := ExtractToken(scope.queryString);
    if token.Some? && token.value != "" {
      scope.user := Some(UserFromToken(token.value, decode, store.users));
    } else {
      scope.user := Some(Anonymous);
    }
  }
}
