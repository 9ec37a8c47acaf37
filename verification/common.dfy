/** Shared vocabulary of the LiquidChat model: optional values, decoded JSON
    documents, the two configuration constants the core reads, the names of
    channel-layer groups and presence keys, and the few Python string
    operations (`strip`, slicing, `startswith`, `split`) the core relies on. */
module Common {

  datatype Option<T> = None | Some(value: T) {
    function GetOr(default: T): T {
      match this
      case Some(v) => v
      case None => default
    }
  }

  datatype Result<T, E> = Ok(value: T) | Err(error: E)

  type UserId = string
  type ConversationId = string
  type MessageId = string
  type ChannelName = string
  type GroupName = string

  /** config/settings.py: MESSAGE_MAX_LENGTH = 2000 */
  const MESSAGE_MAX_LENGTH: nat := 2000
  /** config/settings.py: PRESENCE_EXPIRY = 60 (seconds) */
  const PRESENCE_EXPIRY: nat := 60

  /** The single broadcast group every global-room connection joins. */
  const GLOBAL_GROUP: GroupName := "global_chat"

  /** The per-user inbox group `user_<id>` every private connection of that user joins. */
  function UserGroup(id: UserId): GroupName {
    "user_" + id
  }

  /** The cache key `user_presence:<id>` under which a user's presence is stored. */
  function PresenceKey(id: UserId): string {
    "user_presence:" + id
  }

  /** Distinct users have distinct inbox groups, and no inbox group is the global group. */
  lemma UserGroupInjective(a: UserId, b: UserId)
    ensures UserGroup(a) == UserGroup(b) ==> a == b
    ensures UserGroup(a) != GLOBAL_GROUP
  {
    if UserGroup(a) == UserGroup(b) {
      assert a == UserGroup(a)[5..];
      assert b == UserGroup(b)[5..];
    }
    assert UserGroup(a)[0] == 'u' && GLOBAL_GROUP[0] == 'g';
  }

  /** Distinct users have distinct presence keys. */
  lemma PresenceKeyInjective(a: UserId, b: UserId)
    ensures PresenceKey(a) == PresenceKey(b) ==> a == b
  {
    if PresenceKey(a) == PresenceKey(b) {
      assert a == PresenceKey(a)[14..];
      assert b == PresenceKey(b)[14..];
    }
  }

  // ---------------------------------------------------------------------
  // Decoded JSON frames
  // ---------------------------------------------------------------------

  /** A decoded JSON value, as `json.loads` returns it (numbers are integers here). */
  datatype Json =
    | JNull
    | JBool(b: bool)
    | JNumber(n: int)
    | JString(s: string)
    | JArray(items: seq<Json>)
    | JObject(fields: map<string, Json>)

  /** Python truthiness of a decoded JSON value. */
  predicate Truthy(v: Json) {
    match v
    case JNull => false
    case JBool(b) => b
    case JNumber(n) => n != 0
    case JString(s) => s != ""
    case JArray(items) => |items| > 0
    case JObject(fields) => |fields| > 0
  }

  /** `d.get(key)`: the value under `key`, or `None` (JSON null) when absent. */
  function GetField(fields: map<string, Json>, key: string): Json {
    if key in fields then fields[key] else JNull
  }

  // ---------------------------------------------------------------------
  // Python string operations
  // ---------------------------------------------------------------------

  /** The characters Python's `str.isspace` accepts, which `str.strip()` removes. */
  predicate IsSpace(c: char) {
    || c == ' ' || c == '\t' || c == '\n' || c == '\r'
    || c == '\U{0B}' || c == '\U{0C}'
    || ('\U{1C}' <= c <= '\U{1F}')
    || c == '\U{85}' || c == '\U{A0}' || c == '\U{1680}'
    || ('\U{2000}' <= c <= '\U{200A}')
    || c == '\U{2028}' || c == '\U{2029}' || c == '\U{202F}'
    || c == '\U{205F}' || c == '\U{3000}'
  }

  /** Number of whitespace characters at the start of `s`. */
  function LeadingSpaces(s: string): (n: nat)
    ensures n <= |s|
    ensures forall i :: 0 <= i < n ==> IsSpace(s[i])
    ensures n < |s| ==> !IsSpace(s[n])
  {
    if |s| > 0 && IsSpace(s[0]) then 1 + LeadingSpaces(s[1..]) else 0
  }

  /** Number of whitespace characters at the end of `s`. */
  function TrailingSpaces(s: string): (n: nat)
    ensures n <= |s|
    ensures forall i :: |s| - n <= i < |s| ==> IsSpace(s[i])
    ensures n < |s| ==> !IsSpace(s[|s| - 1 - n])
  {
    if |s| > 0 && IsSpace(s[|s| - 1]) then 1 + TrailingSpaces(s[..|s| - 1]) else 0
  }

  /** Python `s.strip()`: `s` without its leading and trailing whitespace. */
  function Strip(s: string): (r: string)
    ensures LeadingSpaces(s) + |r| <= |s|
    ensures r == s[LeadingSpaces(s)..LeadingSpaces(s) + |r|]
    ensures forall i :: 0 <= i < LeadingSpaces(s) ==> IsSpace(s[i])
    ensures forall i :: LeadingSpaces(s) + |r| <= i < |s| ==> IsSpace(s[i])
    ensures r != [] ==> !IsSpace(r[0]) && !IsSpace(r[|r| - 1])
    ensures r == [] <==> forall i :: 0 <= i < |s| ==> IsSpace(s[i])
  {
    var a := LeadingSpaces(s);
    var t := s[a..];
    var r := t[..|t| - TrailingSpaces(t)];
    assert forall j :: |r| <= j < |t| ==> IsSpace(t[j]);
    r
  }

  /** Python `s[:n] if len(s) > n else s`. */
  function Truncate(s: string, n: nat): string {
    if |s| > n then s[..n] else s
  }

  lemma TruncateIsBoundedPrefix(s: string, n: nat)
    ensures |Truncate(s, n)| <= n
    ensures Truncate(s, n) <= s
    ensures |s| <= n ==> Truncate(s, n) == s
    ensures |s| > n ==> |Truncate(s, n)| == n
  {
  }

  predicate StartsWith(s: string, prefix: string) {
    prefix <= s
  }

  /** Position of the first `c` in `s`. */
  function IndexOf(s: string, c: char): (i: nat)
    requires c in s
    ensures i < |s| && s[i] == c
    ensures c !in s[..i]
  {
    if s[0] == c then 0 else 1 + IndexOf(s[1..], c)
  }

  /** The text of `s` before its first `c` (all of `s` when there is none). */
  function Before(s: string, c: char): (r: string)
    ensures r <= s && c !in r
  {
    if c in s then s[..IndexOf(s, c)] else s
  }

  /** Python `s.split(sep)` for a one-character separator. */
  function Split(s: string, sep: char): (parts: seq<string>)
    ensures |parts| >= 1
    ensures forall i :: 0 <= i < |parts| ==> sep !in parts[i]
    ensures parts[0] == Before(s, sep)
    decreases |s|
  {
    if sep !in s then [s]
    else
      var i := IndexOf(s, sep);
      [s[..i]] + Split(s[i + 1..], sep)
  }

  /** Python `sep.join(parts)`. */
  function Join(parts: seq<string>, sep: string): string {
    if |parts| == 0 then ""
    else if |parts| == 1 then parts[0]
    else parts[0] + sep + Join(parts[1..], sep)
  }

  /** Joining the pieces of a split with the separator gives back the text. */
  lemma {:induction false} JoinSplit(s: string, sep: char)
    ensures Join(Split(s, sep), [sep]) == s
    decreases |s|
  {
    if sep in s {
      var i := IndexOf(s, sep);
      var rest := s[i + 1..];
      JoinSplit(rest, sep);
      assert Split(s, sep) == [s[..i]] + Split(rest, sep);
      assert s == s[..i] + [sep] + rest;
    }
  }
}
