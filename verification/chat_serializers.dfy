/** The conversation serializers (apps/chat/serializers.py): the preview of
    a conversation's last message, its unread count for the requester, and
    the find-or-create of a conversation between two users. */
module ChatSerializers {
  import opened Common
  import opened Ordering
  import opened Database

  const PREVIEW_LENGTH: nat := 100
  const USER_NOT_FOUND_OR_INACTIVE: string := "User not found or inactive."

  /** Primary keys: no two users share an id. */
  predicate UniqueUserIds(users: seq<User>) {
    forall i, j :: 0 <= i < j < |users| ==> users[i].id != users[j].id
  }

  /** `conversation.messages`: the messages of conversation `cid`, in table order. */
  function MessagesOf(ms: seq<PrivateMessage>, cid: ConversationId): seq<PrivateMessage> {
    Filter(ms, (m: PrivateMessage) => m.conversationId == cid)
  }

  /** The `last_message` field: content, timestamp and sender of a message. */
  datatype Preview = Preview(content: string, timestamp: int, senderId: UserId)

  /** `get_last_message`: the newest message, its content cut to 100 characters. */
  function LastMessage(ms: seq<PrivateMessage>, cid: ConversationId): Option<Preview> {
    match First(SortDesc(MessagesOf(ms, cid), MessageTime))
    case None => None
    case Some(m) => Some(Preview(Truncate(m.content, PREVIEW_LENGTH), m.timestamp, m.senderId))
  }

  /** There is no preview exactly when the conversation has no message;
      otherwise it shows a message of the conversation that no other message
      of it is newer than, cut to a prefix of at most 100 characters. */
  lemma LastMessageIsLatest(ms: seq<PrivateMessage>, cid: ConversationId)
    ensures LastMessage(ms, cid).None? <==> forall i :: 0 <= i < |ms| ==> ms[i].conversationId != cid
    ensures LastMessage(ms, cid).Some? ==>
      exists m :: m in ms && m.conversationId == cid
        && LastMessage(ms, cid).value == Preview(Truncate(m.content, PREVIEW_LENGTH), m.timestamp, m.senderId)
        && |LastMessage(ms, cid).value.content| <= PREVIEW_LENGTH
        && LastMessage(ms, cid).value.content <= m.content
        && forall n :: n in ms && n.conversationId == cid ==> n.timestamp <= m.timestamp
  {
    var own := MessagesOf(ms, cid);
    FirstOfSortedIsLatest(own, MessageTime);
    FilterEmptyIff(ms, (m: PrivateMessage) => m.conversationId == cid);
    if First(SortDesc(own, MessageTime)).Some? {
      var m := First(SortDesc(own, MessageTime)).value;
      TruncateIsBoundedPrefix(m.content, PREVIEW_LENGTH);
      forall n | n in ms && n.conversationId == cid ensures n.timestamp <= m.timestamp {
        var i :| 0 <= i < |ms| && ms[i] == n;
        assert n in own;
      }
    }
  }

  /** Unread for `me`: unread and sent by somebody else. */
  predicate UnreadFor(m: PrivateMessage, cid: ConversationId, me: UserId) {
    m.conversationId == cid && !m.isRead && m.senderId != me
  }

  /** `get_unread_count`; `requester` is `None` when the context has no request or user. */
  function UnreadCount(ms: seq<PrivateMessage>, cid: ConversationId, requester: Option<UserId>): nat {
    match requester
    case None => 0
    case Some(me) => |Filter(ms, m => UnreadFor(m, cid, me))|
  }

  /** The count is zero without a requester; with one, it is zero exactly
      when no message of the conversation from somebody else is unread, and
      it never exceeds the number of messages of the conversation. */
  lemma UnreadCountBounds(ms: seq<PrivateMessage>, cid: ConversationId, requester: Option<UserId>)
    ensures requester.None? ==> UnreadCount(ms, cid, requester) == 0
    ensures requester.Some? ==>
      (UnreadCount(ms, cid, requester) == 0 <==>
        forall i :: 0 <= i < |ms| ==> !UnreadFor(ms[i], cid, requester.value))
    ensures UnreadCount(ms, cid, requester) <= |MessagesOf(ms, cid)|
  {
    if requester.Some? {
      var me := requester.value;
      var unread := Filter(ms, m => UnreadFor(m, cid, me));
      FilterEmptyIff(ms, m => UnreadFor(m, cid, me));
      FilterNarrower(ms, m => UnreadFor(m, cid, me), (m: PrivateMessage) => m.conversationId == cid);
    }
  }

  /** Filtering by a stronger condition keeps no more rows. */
  lemma {:induction false} FilterNarrower<T>(s: seq<T>, p: T -> bool, q: T -> bool)
    requires forall x :: p(x) ==> q(x)
    ensures |Filter(s, p)| <= |Filter(s, q)|
  {
    if |s| > 0 {
      FilterNarrower(s[1..], p, q);
    }
  }

  /** `validate_user_id`: the id must name an existing, active user. */
  function ValidateUserId(users: seq<User>, value: UserId): (r: Result<UserId, string>)
    ensures r.Ok? ==> r.value == value
    ensures r.Err? ==> r.error == USER_NOT_FOUND_OR_INACTIVE
  {
    if FindActiveUser(users, value).Some? then Ok(value) else Err(USER_NOT_FOUND_OR_INACTIVE)
  }

  /** With unique ids, an id is accepted exactly when an active user has it. */
  lemma {:induction false} ValidateUserIdAcceptsActiveUsers(users: seq<User>, value: UserId)
    requires UniqueUserIds(users)
    ensures ValidateUserId(users, value).Ok? <==>
      exists i :: 0 <= i < |users| && users[i].id == value && users[i].isActive
  {
    var u := FindUser(users, value);
    if u.Some? && !u.value.isActive {
      var k :| 0 <= k < |users| && users[k] == u.value;
      forall i | 0 <= i < |users| && users[i].id == value ensures !users[i].isActive {
        var ui, uk := users[i], users[k];
        assert i < k ==> ui.id != uk.id;
        assert k < i ==> uk.id != ui.id;
        assert i == k;
      }
    }
  }

  /** `.first()` over conversations matching `p`: the default ordering is
      `-updated_at`, so the most recently updated one. */
  function Latest(cs: seq<Conversation>, p: Conversation -> bool): Option<Conversation> {
    First(SortDesc(Filter(cs, p), UpdatedAt))
  }

  /** The latest match is a matching row, and there is none only when no row matches. */
  lemma LatestMatches(cs: seq<Conversation>, p: Conversation -> bool)
    ensures Latest(cs, p).Some? ==> Latest(cs, p).value in cs && p(Latest(cs, p).value)
    ensures Latest(cs, p).None? <==> forall i :: 0 <= i < |cs| ==> !p(cs[i])
    ensures Latest(cs, p).Some? ==>
      forall i :: 0 <= i < |cs| && p(cs[i]) ==> cs[i].updatedAt <= Latest(cs, p).value.updatedAt
  {
    var matching := Filter(cs, p);
    FirstOfSortedIsLatest(matching, UpdatedAt);
    FilterEmptyIff(cs, p);
    if Latest(cs, p).Some? {
      assert Latest(cs, p).value in matching;
    }
  }

  /** A new matching row appended where nothing matched is then the only match. */
  lemma LatestOfFreshRow(cs: seq<Conversation>, p: Conversation -> bool, c: Conversation)
    requires forall i :: 0 <= i < |cs| ==> !p(cs[i])
    requires p(c)
    ensures Latest(cs + [c], p) == Some(c)
  {
    FilterAppend(cs, c, p);
    FilterEmptyIff(cs, p);
    assert Filter(cs + [c], p) == [c];
    assert SortDesc([c], UpdatedAt) == [c] by {
      assert [c][1..] == [];
    }
  }

  /** Conversations `a` and `b` both take part in. */
  predicate Shared(c: Conversation, a: UserId, b: UserId) {
    a in c.participants && b in c.participants
  }

  /** `ConversationCreateSerializer.create`: the other user is fetched (a
      missing one raises `DoesNotExist`), then the latest conversation with
      both users is returned, whatever its number of participants; failing
      that, a new conversation with the two of them is stored. */
  function CreateSpec(t: Tables, me: UserId, otherId: UserId, newId: ConversationId, now: int)
    : (r: (Result<Conversation, string>, Tables))
    ensures r.0.Err? ==> r.1 == t
  {
    if FindUser(t.users, otherId).None? then (Err("DoesNotExist"), t)
    else match Latest(t.conversations, c => Shared(c, me, otherId))
      case Some(c) => (Ok(c), t)
      case None =>
        var c := Conversation(newId, PairParticipants(me, otherId), now, now);
        (Ok(c), t.(conversations := t.conversations + [c]))
  }

  /** `create`, on the database. */
  method CreateOrGetConversation(store: ChatStore, me: UserId, otherId: UserId, newId: ConversationId, now: int)
    returns (r: Result<Conversation, string>)
    modifies store
    ensures (r, store.Snapshot()) == CreateSpec(old(store.Snapshot()), me, otherId, newId, now)
  {
    if FindUser(store.users, otherId).None? {
      return Err("DoesNotExist");
    }
    var existing := Latest(store.conversations, c => Shared(c, me, otherId));
    if existing.Some? {
      return Ok(existing.value);
    }
    var c := store.CreateConversation(newId, PairParticipants(me, otherId), now);
    r := Ok(c);
  }

  /** `create` fails only for a missing user; otherwise it returns a stored
      conversation with both users: the latest existing one, whatever its
      number of participants, with nothing stored, or, when there is none,
      a new conversation of exactly the two users appended to the table. */
  lemma CreateReturnsShared(t: Tables, me: UserId, otherId: UserId, newId: ConversationId, now: int)
    ensures CreateSpec(t, me, otherId, newId, now).0.Err? <==> FindUser(t.users, otherId).None?
    ensures CreateSpec(t, me, otherId, newId, now).0.Ok? ==>
      var c := CreateSpec(t, me, otherId, newId, now).0.value;
      var t' := CreateSpec(t, me, otherId, newId, now).1;
      && Shared(c, me, otherId)
      && c in t'.conversations
      && t'.users == t.users && t'.messages == t.messages && t'.globalMessages == t.globalMessages
      && (t'.conversations == t.conversations || t'.conversations == t.conversations + [c])
    ensures FindUser(t.users, otherId).Some? &&
            (exists i :: 0 <= i < |t.conversations| && Shared(t.conversations[i], me, otherId)) ==>
      var (r, t') := CreateSpec(t, me, otherId, newId, now);
      && t' == t && r.Ok? && r.value in t.conversations
      && forall i :: 0 <= i < |t.conversations| && Shared(t.conversations[i], me, otherId) ==>
           t.conversations[i].updatedAt <= r.value.updatedAt
    ensures FindUser(t.users, otherId).Some? &&
            (forall i :: 0 <= i < |t.conversations| ==> !Shared(t.conversations[i], me, otherId)) ==>
      var (r, t') := CreateSpec(t, me, otherId, newId, now);
      && r.Ok? && t' == t.(conversations := t.conversations + [r.value])
      && (forall u :: u in r.value.participants <==> u == me || u == otherId)
  {
    LatestMatches(t.conversations, c => Shared(c, me, otherId));
  }

  /** A second `create` for the same pair returns the same conversation and stores nothing. */
  lemma CreateTwiceReturnsSame(t: Tables, me: UserId, otherId: UserId, id1: ConversationId, id2: ConversationId,
                               now1: int, now2: int)
    requires CreateSpec(t, me, otherId, id1, now1).0.Ok?
    ensures var (r1, t1) := CreateSpec(t, me, otherId, id1, now1);
      CreateSpec(t1, me, otherId, id2, now2) == (r1, t1)
  {
    var p := c => Shared(c, me, otherId);
    LatestMatches(t.conversations, p);
    var (r1, t1) := CreateSpec(t, me, otherId, id1, now1);
    if Latest(t.conversations, p).None? {
      LatestOfFreshRow(t.conversations, p, r1.value);
    }
  }
}
