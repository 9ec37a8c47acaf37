/** The REST views of the chat (apps/chat/views.py) over the database:
    marking messages read, getting or creating a two-person conversation,
    the message histories and the conversation list. Responses are a status
    code and the `detail` text; the serialized bodies are not modelled. */
module ChatViews {
  import opened Common
  import opened Ordering
  import opened Database
  import opened ChatSerializers

  datatype Reply = Reply(status: int, detail: string)

  const NO_MESSAGE_IDS: string := "No message IDs provided."
  const CONVERSATION_NOT_FOUND: string := "Conversation not found."
  const MESSAGES_MARKED: string := "Messages marked as read."
  const USER_NOT_FOUND: string := "User not found."

  /** `Conversation.objects.filter(id=cid, participants=me).first()`. */
  function ParticipantConversation(cs: seq<Conversation>, cid: ConversationId, me: UserId): Option<Conversation> {
    Latest(cs, (c: Conversation) => c.id == cid && me in c.participants)
  }

  /** The rows the mark-read update touches: listed, in the conversation,
      unread, and not sent by the requester. */
  predicate ShouldMark(m: PrivateMessage, ids: seq<MessageId>, cid: ConversationId, me: UserId) {
    m.id in ids && m.conversationId == cid && !m.isRead && m.senderId != me
  }

  function Marked(m: PrivateMessage, ids: seq<MessageId>, cid: ConversationId, me: UserId): PrivateMessage {
    if ShouldMark(m, ids, cid, me) then m.(isRead := true) else m
  }

  /** `.update(is_read=True)` over the message table. */
  function MarkRead(ms: seq<PrivateMessage>, ids: seq<MessageId>, cid: ConversationId, me: UserId)
    : (r: seq<PrivateMessage>)
    ensures |r| == |ms|
    // A row ends up read when it was read or the request marks it; nothing
    // else about any row changes.
    ensures forall i :: 0 <= i < |ms| ==>
      && r[i].isRead == (ms[i].isRead || ShouldMark(ms[i], ids, cid, me))
      && r[i].(isRead := ms[i].isRead) == ms[i]
  {
    seq(|ms|, i requires 0 <= i < |ms| => Marked(ms[i], ids, cid, me))
  }

  /** `MarkMessagesReadView.post`; a missing `message_ids` is the empty list. */
  function MarkReadSpec(t: Tables, me: UserId, cid: ConversationId, ids: seq<MessageId>): (Reply, Tables) {
    if |ids| == 0 then (Reply(400, NO_MESSAGE_IDS), t)
    else if ParticipantConversation(t.conversations, cid, me).None? then (Reply(404, CONVERSATION_NOT_FOUND), t)
    else (Reply(200, MESSAGES_MARKED), t.(messages := MarkRead(t.messages, ids, cid, me)))
  }

  /** `MarkMessagesReadView.post`: the checks, then one bulk `.update()` of the message table. */
  method MarkMessagesRead(store: ChatStore, me: UserId, cid: ConversationId, ids: seq<MessageId>)
    returns (reply: Reply)
    modifies store
    ensures (reply, store.Snapshot()) == MarkReadSpec(old(store.Snapshot()), me, cid, ids)
  {
    if |ids| == 0 {
      return Reply(400, NO_MESSAGE_IDS);
    }
    if ParticipantConversation(store.conversations, cid, me).None? {
      return Reply(404, CONVERSATION_NOT_FOUND);
    }
    store.ReplaceMessages(MarkRead(store.messages, ids, cid, me));
    reply := Reply(200, MESSAGES_MARKED);
  }

  /** Without ids the answer is 400, before any lookup; without a
      conversation the requester takes part in it is 404; in both cases
      nothing changes. Otherwise only the message table changes. */
  lemma MarkReadOutcomes(t: Tables, me: UserId, cid: ConversationId, ids: seq<MessageId>)
    ensures MarkReadSpec(t, me, cid, ids).0.status == 400 <==> |ids| == 0
    ensures MarkReadSpec(t, me, cid, ids).0.status == 404 <==>
      |ids| > 0 && forall i :: 0 <= i < |t.conversations| ==>
        !(t.conversations[i].id == cid && me in t.conversations[i].participants)
    ensures MarkReadSpec(t, me, cid, ids).0.status != 200 ==> MarkReadSpec(t, me, cid, ids).1 == t
    ensures MarkReadSpec(t, me, cid, ids).1.users == t.users
    ensures MarkReadSpec(t, me, cid, ids).1.conversations == t.conversations
    ensures MarkReadSpec(t, me, cid, ids).1.globalMessages == t.globalMessages
  {
    LatestMatches(t.conversations, (c: Conversation) => c.id == cid && me in c.participants);
  }

  /** A successful mark-read sets `is_read` exactly on the listed, unread
      messages of the conversation that others sent, and changes no other
      field of any message. */
  lemma MarkReadExactly(t: Tables, me: UserId, cid: ConversationId, ids: seq<MessageId>)
    requires MarkReadSpec(t, me, cid, ids).0.status == 200
    ensures var ms' := MarkReadSpec(t, me, cid, ids).1.messages;
      && |ms'| == |t.messages|
      && forall i :: 0 <= i < |t.messages| ==>
        && ms'[i].isRead == (t.messages[i].isRead || ShouldMark(t.messages[i], ids, cid, me))
        && ms'[i].(isRead := t.messages[i].isRead) == t.messages[i]
  {
  }

  /** Marking again with the same request changes nothing more. */
  lemma MarkReadIdempotent(t: Tables, me: UserId, cid: ConversationId, ids: seq<MessageId>)
    ensures var (reply, t1) := MarkReadSpec(t, me, cid, ids);
      MarkReadSpec(t1, me, cid, ids) == (reply, t1)
  {
    var (reply, t1) := MarkReadSpec(t, me, cid, ids);
    if reply.status == 200 {
      var once := t1.messages;
      var twice := MarkRead(once, ids, cid, me);
      assert forall i :: 0 <= i < |once| ==> twice[i] == once[i];
      assert twice == once;
    }
  }

  /** After marking, the messages still unread for the requester are
      exactly those that were unread for them and not listed. */
  lemma {:induction false} UnreadAfterMarkRead(ms: seq<PrivateMessage>, ids: seq<MessageId>,
                                               cid: ConversationId, me: UserId)
    ensures Filter(MarkRead(ms, ids, cid, me), m => UnreadFor(m, cid, me))
         == Filter(ms, m => UnreadFor(m, cid, me) && m.id !in ids)
  {
    if |ms| > 0 {
      UnreadAfterMarkRead(ms[1..], ids, cid, me);
      assert MarkRead(ms, ids, cid, me)[1..] == MarkRead(ms[1..], ids, cid, me);
    }
  }

  /** Listing every message of the conversation clears the requester's unread count. */
  lemma MarkingAllClearsUnreadCount(t: Tables, me: UserId, cid: ConversationId, ids: seq<MessageId>)
    requires MarkReadSpec(t, me, cid, ids).0.status == 200
    requires forall i :: 0 <= i < |t.messages| && t.messages[i].conversationId == cid ==> t.messages[i].id in ids
    ensures UnreadCount(MarkReadSpec(t, me, cid, ids).1.messages, cid, Some(me)) == 0
  {
    UnreadAfterMarkRead(t.messages, ids, cid, me);
    FilterEmptyIff(t.messages, m => UnreadFor(m, cid, me) && m.id !in ids);
  }

  /** The conversation the get-or-create view looks for: two participants,
      the requester and the other user among them. */
  predicate TwoPersonWith(c: Conversation, me: UserId, otherId: UserId) {
    |c.participants| == 2 && me in c.participants && otherId in c.participants
  }

  /** Any conversation of two participants with `me` among them. */
  predicate TwoPersonOf(c: Conversation, me: UserId) {
    |c.participants| == 2 && me in c.participants
  }

  /** `GetOrCreateConversationView.get`; `newId` and `now` are the new
      conversation's generated id and creation time. */
  function GetOrCreateSpec(t: Tables, me: UserId, otherId: UserId, newId: ConversationId, now: int)
    : (Result<Conversation, Reply>, Tables)
  {
    match Latest(t.conversations, c => TwoPersonWith(c, me, otherId))
    case Some(c) => (Ok(c), t)
    case None =>
      match FindActiveUser(t.users, otherId)
      case None => (Err(Reply(404, USER_NOT_FOUND)), t)
      case Some(other) =>
        var c := Conversation(newId, PairParticipants(me, other.id), now, now);
        (Ok(c), t.(conversations := t.conversations + [c]))
  }

  /** `GetOrCreateConversationView.get`, on the database. */
  method GetOrCreateConversation(store: ChatStore, me: UserId, otherId: UserId, newId: ConversationId, now: int)
    returns (r: Result<Conversation, Reply>)
    modifies store
    ensures (r, store.Snapshot()) == GetOrCreateSpec(old(store.Snapshot()), me, otherId, newId, now)
  {
    var existing := Latest(store.conversations, c => TwoPersonWith(c, me, otherId));
    if existing.Some? {
      return Ok(existing.value);
    }
    var other := FindActiveUser(store.users, otherId);
    if other.None? {
      return Err(Reply(404, USER_NOT_FOUND));
    }
    var c := store.CreateConversation(newId, PairParticipants(me, other.value.id), now);
    r := Ok(c);
  }

  /** The latest existing two-person conversation of the pair is returned
      with the tables unchanged; without one, the answer is 404 unless the
      other user exists and is active, and then a conversation of exactly
      the two users is appended to the table. */
  lemma GetOrCreateOutcomes(t: Tables, me: UserId, otherId: UserId, newId: ConversationId, now: int)
    ensures var (r, t') := GetOrCreateSpec(t, me, otherId, newId, now);
      && (r.Err? <==>
           (forall i :: 0 <= i < |t.conversations| ==> !TwoPersonWith(t.conversations[i], me, otherId))
           && FindActiveUser(t.users, otherId).None?)
      && (r.Err? ==> r.error.status == 404 && t' == t)
      && (r.Ok? ==> me in r.value.participants && otherId in r.value.participants && r.value in t'.conversations)
      && (r.Ok? && t' != t ==>
           && t' == t.(conversations := t.conversations + [r.value])
           && (forall u :: u in r.value.participants <==> u == me || u == otherId)
           && FindActiveUser(t.users, otherId).Some?)
    ensures (exists i :: 0 <= i < |t.conversations| && TwoPersonWith(t.conversations[i], me, otherId)) ==>
      var (r, t') := GetOrCreateSpec(t, me, otherId, newId, now);
      && t' == t && r.Ok? && r.value in t.conversations && TwoPersonWith(r.value, me, otherId)
      && forall i :: 0 <= i < |t.conversations| && TwoPersonWith(t.conversations[i], me, otherId) ==>
           t.conversations[i].updatedAt <= r.value.updatedAt
    ensures (forall i :: 0 <= i < |t.conversations| ==> !TwoPersonWith(t.conversations[i], me, otherId))
            && FindActiveUser(t.users, otherId).Some? ==>
      var (r, t') := GetOrCreateSpec(t, me, otherId, newId, now);
      && r.Ok? && t' == t.(conversations := t.conversations + [r.value])
      && (forall u :: u in r.value.participants <==> u == me || u == otherId)
  {
    LatestMatches(t.conversations, c => TwoPersonWith(c, me, otherId));
  }

  /** Asking twice for a conversation with another user gives the same
      conversation and stores nothing the second time. */
  lemma GetOrCreateTwiceReturnsSame(t: Tables, me: UserId, otherId: UserId, id1: ConversationId,
                                    id2: ConversationId, now1: int, now2: int)
    requires me != otherId
    requires GetOrCreateSpec(t, me, otherId, id1, now1).0.Ok?
    ensures var (r1, t1) := GetOrCreateSpec(t, me, otherId, id1, now1);
      GetOrCreateSpec(t1, me, otherId, id2, now2) == (r1, t1)
  {
    var p := c => TwoPersonWith(c, me, otherId);
    LatestMatches(t.conversations, p);
    var (r1, t1) := GetOrCreateSpec(t, me, otherId, id1, now1);
    if Latest(t.conversations, p).None? {
      LatestOfFreshRow(t.conversations, p, r1.value);
    }
  }

  /** Asking for a conversation with oneself while the requester has no
      two-person conversation is not idempotent: the stored conversation
      has one participant, so the two-participant search never finds it,
      and every such request stores another one. */
  lemma GetOrCreateWithSelfStoresAnotherEachTime(t: Tables, me: UserId, id1: ConversationId,
                                                  id2: ConversationId, now1: int, now2: int)
    requires forall i :: 0 <= i < |t.conversations| ==> !TwoPersonWith(t.conversations[i], me, me)
    requires FindActiveUser(t.users, me).Some?
    ensures var (r1, t1) := GetOrCreateSpec(t, me, me, id1, now1);
      var (r2, t2) := GetOrCreateSpec(t1, me, me, id2, now2);
      && r1 == Ok(Conversation(id1, [me], now1, now1))
      && r2 == Ok(Conversation(id2, [me], now2, now2))
      && t2.conversations == t.conversations + [r1.value, r2.value]
  {
    var p := c => TwoPersonWith(c, me, me);
    LatestMatches(t.conversations, p);
    var (r1, t1) := GetOrCreateSpec(t, me, me, id1, now1);
    LatestMatches(t1.conversations, p);
    assert forall i :: 0 <= i < |t1.conversations| ==> !TwoPersonWith(t1.conversations[i], me, me) by {
      forall i | 0 <= i < |t1.conversations|
        ensures !TwoPersonWith(t1.conversations[i], me, me)
      {
        if i == |t.conversations| {
          assert t1.conversations[i] == Conversation(id1, [me], now1, now1);
        } else {
          assert t1.conversations[i] == t.conversations[i];
        }
      }
    }
  }

  /** Once the requester has any two-person conversation, asking for a
      conversation with oneself returns the latest of them, stores nothing,
      and, participants being distinct as in a many-to-many relation, the
      conversation returned includes another user. */
  lemma GetOrCreateWithSelfReturnsAnyTwoPersonConversation(t: Tables, me: UserId, newId: ConversationId, now: int)
    requires exists i :: 0 <= i < |t.conversations| && TwoPersonWith(t.conversations[i], me, me)
    ensures var (r, t') := GetOrCreateSpec(t, me, me, newId, now);
      && t' == t
      && Latest(t.conversations, c => TwoPersonOf(c, me)).Some?
      && r == Ok(Latest(t.conversations, c => TwoPersonOf(c, me)).value)
      && r.value in t.conversations && |r.value.participants| == 2 && me in r.value.participants
      && (r.value.participants[0] != r.value.participants[1] ==>
            exists u :: u in r.value.participants && u != me)
  {
    var p := c => TwoPersonWith(c, me, me);
    var q := c => TwoPersonOf(c, me);
    FilterCongruent(t.conversations, p, q);
    LatestMatches(t.conversations, p);
    var c := Latest(t.conversations, p).value;
    if c.participants[0] != c.participants[1] {
      if c.participants[0] == me {
        assert c.participants[1] in c.participants;
      } else {
        assert c.participants[0] in c.participants;
      }
    }
  }

  /** The serializer's `create` returns a three-person conversation of the
      pair, where the view ignores it and creates a new two-person one. */
  lemma ViewAndSerializerDisagreeOnGroups()
    ensures var a := User("a", "alice", "h", true, None, 0);
      var b := User("b", "bob", "h", true, None, 0);
      var group := Conversation("g", ["a", "b", "c"], 0, 0);
      var t := Tables([a, b], [group], [], []);
      && CreateSpec(t, "a", "b", "n", 1).0 == Ok(group)
      && GetOrCreateSpec(t, "a", "b", "n", 1).0 == Ok(Conversation("n", ["a", "b"], 1, 1))
  {
    var group := Conversation("g", ["a", "b", "c"], 0, 0);
    var t := Tables([User("a", "alice", "h", true, None, 0), User("b", "bob", "h", true, None, 0)], [group], [], []);
    assert Filter([group], c => Shared(c, "a", "b")) == [group];
    assert [group][1..] == [];
    assert Filter([group], c => TwoPersonWith(c, "a", "b")) == [];
  }

  /** `PrivateMessageHistoryView.list`: the conversation's messages newest
      first, reversed; nothing for a requester outside the conversation. */
  function PrivateHistory(t: Tables, cid: ConversationId, me: UserId): seq<PrivateMessage> {
    if ParticipantConversation(t.conversations, cid, me).None? then []
    else Reverse(SortDesc(MessagesOf(t.messages, cid), MessageTime))
  }

  /** `GlobalMessageHistoryView.list`. */
  function GlobalHistory(t: Tables): seq<GlobalMessage> {
    Reverse(SortDesc(t.globalMessages, GlobalTime))
  }

  /** Histories are oldest first and hold exactly the messages: those of
      the conversation for a participant, none for anybody else. */
  lemma HistoriesOldestFirst(t: Tables, cid: ConversationId, me: UserId)
    ensures SortedAsc(PrivateHistory(t, cid, me), MessageTime)
    ensures PrivateHistory(t, cid, me) == [] <==>
      || (forall i :: 0 <= i < |t.conversations| ==>
            !(t.conversations[i].id == cid && me in t.conversations[i].participants))
      || (forall i :: 0 <= i < |t.messages| ==> t.messages[i].conversationId != cid)
    ensures PrivateHistory(t, cid, me) != [] ==> multiset(PrivateHistory(t, cid, me)) == multiset(MessagesOf(t.messages, cid))
    ensures SortedAsc(GlobalHistory(t), GlobalTime)
    ensures multiset(GlobalHistory(t)) == multiset(t.globalMessages)
  {
    LatestMatches(t.conversations, (c: Conversation) => c.id == cid && me in c.participants);
    var own := MessagesOf(t.messages, cid);
    FilterEmptyIff(t.messages, (m: PrivateMessage) => m.conversationId == cid);
    ReverseOfDescIsAsc(SortDesc(own, MessageTime), MessageTime);
    ReverseOfDescIsAsc(SortDesc(t.globalMessages, GlobalTime), GlobalTime);
  }

  /** `ConversationListView.get_queryset`. */
  function ConversationList(t: Tables, me: UserId): seq<Conversation> {
    SortDesc(Filter(t.conversations, (c: Conversation) => me in c.participants), UpdatedAt)
  }

  /** The list holds every conversation of the requester and no other, each
      as often as in the table, most recently updated first. */
  lemma ConversationListContents(t: Tables, me: UserId)
    ensures forall c :: c in ConversationList(t, me) <==> c in t.conversations && me in c.participants
    ensures forall c :: multiset(ConversationList(t, me))[c] ==
                        (if me in c.participants then multiset(t.conversations)[c] else 0)
    ensures SortedDesc(ConversationList(t, me), UpdatedAt)
  {
    var p := (c: Conversation) => me in c.participants;
    forall c ensures multiset(ConversationList(t, me))[c] == if p(c) then multiset(t.conversations)[c] else 0 {
      FilterMultiset(t.conversations, p, c);
    }
    forall c ensures c in ConversationList(t, me) <==> c in t.conversations && me in c.participants {
      FilterMultiset(t.conversations, p, c);
      assert c in ConversationList(t, me) <==> c in multiset(ConversationList(t, me));
      assert c in t.conversations <==> c in multiset(t.conversations);
    }
  }
}
